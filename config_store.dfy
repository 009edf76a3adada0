/**
 * The default-location store: the document kept in `data.json`, its creation on
 * first run, `get_default_parameters` and `edit_json_file`.
 * The file is a single `Option<Json>`: `None` when it does not exist.
 */
module ConfigStore {
  import opened Wrappers
  import opened JsonValue

  /** `DefaultParameters`: one city/country record. */
  datatype Pair = Pair(city: string, country: string)

  const ParamsKey: string := "default_parameters"
  const CityKey: string := "city"
  const CountryKey: string := "country"

  /** The record stored while no default has been chosen yet. */
  const Unset: Pair := Pair("", "")

  /** The object form in which a record is written. */
  function EncodeParams(p: Pair): Json
  {
    JObj(map[CityKey := JStr(p.city), CountryKey := JStr(p.country)])
  }

  /** The document `create_data_json` writes: `{"default_parameters":[{"city":"","country":""}]}`. */
  const DefaultDocument: Json := JObj(map[ParamsKey := JArr([EncodeParams(Unset)])])

  // ---------------------------------------------------------------------------
  // Reading: deserialising into `Config`
  // ---------------------------------------------------------------------------

  /**
   * Deserialising one `DefaultParameters`. A derived serde struct is read from an
   * object that has both fields as strings (other keys are ignored), or from an
   * array holding exactly its two fields in declaration order.
   */
  function DecodeParams(v: Json): (r: Option<Pair>)
    ensures r.Some? ==> v == JArr([JStr(r.value.city), JStr(r.value.country)]) ||
                        (v.JObj? && CityKey in v.fields && CountryKey in v.fields &&
                         v.fields[CityKey] == JStr(r.value.city) && v.fields[CountryKey] == JStr(r.value.country))
    ensures (v.JObj? && CityKey in v.fields && CountryKey in v.fields &&
             v.fields[CityKey].JStr? && v.fields[CountryKey].JStr?) ==> r.Some?
    ensures (v.JArr? && |v.items| == 2 && v.items[0].JStr? && v.items[1].JStr?) ==> r.Some?
  {
    match v
    case JObj(f) =>
      if CityKey in f && f[CityKey].JStr? && CountryKey in f && f[CountryKey].JStr?
      then Some(Pair(f[CityKey].s, f[CountryKey].s))
      else None
    case JArr(items) =>
      if |items| == 2 && items[0].JStr? && items[1].JStr?
      then Some(Pair(items[0].s, items[1].s))
      else None
    case _ => None
  }

  /** Deserialising `Vec<DefaultParameters>`: every element must be a record. */
  function DecodeAll(items: seq<Json>): (r: Option<seq<Pair>>)
    ensures r.Some? <==> forall i :: 0 <= i < |items| ==> DecodeParams(items[i]).Some?
    ensures r.Some? ==> |r.value| == |items| &&
                        forall i :: 0 <= i < |items| ==> DecodeParams(items[i]) == Some(r.value[i])
    decreases |items|
  {
    if |items| == 0 then Some([])
    else
      match DecodeParams(items[0])
      case None => None
      case Some(p) =>
        match DecodeAll(items[1..])
        case None => None
        case Some(ps) => Some([p] + ps)
  }

  /**
   * The raw `default_parameters` array of a document that `Config` accepts the
   * shape of: an object with that key (other keys ignored), or an array holding
   * exactly that one field.
   */
  function DefaultList(doc: Json): (r: Option<seq<Json>>)
    ensures doc.JObj? ==> (r.Some? <==> ParamsKey in doc.fields && doc.fields[ParamsKey].JArr?)
    ensures doc.JObj? && r.Some? ==> r.value == doc.fields[ParamsKey].items
    ensures doc.JArr? ==> (r.Some? <==> |doc.items| == 1 && doc.items[0].JArr?)
    ensures doc.JArr? && r.Some? ==> r.value == doc.items[0].items
    ensures !doc.JObj? && !doc.JArr? ==> r.None?
  {
    match doc
    case JObj(f) =>
      if ParamsKey in f && f[ParamsKey].JArr? then Some(f[ParamsKey].items) else None
    case JArr(items) =>
      if |items| == 1 && items[0].JArr? then Some(items[0].items) else None
    case _ => None
  }

  /** Why `get_default_parameters` fails. */
  datatype LoadError =
    | FileMissing          // File::open fails
    | Malformed            // serde_json cannot build a `Config`
    | NoDefaultParameters  // the array is empty: "No default parameters found"

  /** `get_default_parameters`: element 0 of `default_parameters`, or the reason there is none. */
  function LoadDefaults(file: Option<Json>): (r: Result<Pair, LoadError>)
    ensures r == Err(FileMissing) <==> file.None?
    ensures r.Ok? <==> file.Some? && DefaultList(file.value).Some? && |DefaultList(file.value).value| > 0 &&
                       forall i :: 0 <= i < |DefaultList(file.value).value| ==>
                                   DecodeParams(DefaultList(file.value).value[i]).Some?
    ensures r.Ok? ==> DecodeParams(DefaultList(file.value).value[0]) == Some(r.value)
    ensures r == Err(NoDefaultParameters) <==> file.Some? && DefaultList(file.value) == Some([])
  {
    match file
    case None => Err(FileMissing)
    case Some(doc) =>
      match DefaultList(doc)
      case None => Err(Malformed)
      case Some(list) =>
        match DecodeAll(list)
        case None => Err(Malformed)
        case Some(ps) => if |ps| == 0 then Err(NoDefaultParameters) else Ok(ps[0])
  }

  // ---------------------------------------------------------------------------
  // Bootstrap: `create_data_json` when the file cannot be opened
  // ---------------------------------------------------------------------------

  function BootstrapFile(file: Option<Json>): (r: Option<Json>)
    ensures file.Some? ==> r == file
    ensures file.None? ==> r == Some(DefaultDocument)
  {
    if file.None? then Some(DefaultDocument) else file
  }

  /** Bootstrapping twice is bootstrapping once. */
  lemma BootstrapIdempotent(file: Option<Json>)
    ensures BootstrapFile(BootstrapFile(file)) == BootstrapFile(file)
  {
  }

  /** A freshly created file loads as the unset record. */
  lemma BootstrapLoadsUnset()
    ensures LoadDefaults(BootstrapFile(None)) == Ok(Unset)
  {
    assert DefaultList(DefaultDocument) == Some([EncodeParams(Unset)]);
    assert DecodeParams(EncodeParams(Unset)) == Some(Unset);
  }

  // ---------------------------------------------------------------------------
  // Editing: `edit_json_file`
  // ---------------------------------------------------------------------------

  /** Why `edit_json_file` does not rewrite the file. */
  datatype EditError =
    | NoFile          // File::open fails
    | KeyMissing      // `get_mut("default_parameters")` finds nothing: "Unable to find 'default_parameters' key"
    | NotAnArray      // `as_array().unwrap()` panics
    | NotIndexable    // `first_obj["city"] = ...` panics on element 0

  /** The two error kinds that are panics in the source rather than returned errors. */
  predicate IsPanic(e: EditError)
  {
    e.NotAnArray? || e.NotIndexable?
  }

  /** Element 0 after the edit: `city` and `country` replaced, every other key of it kept. */
  ghost predicate UpdatedRecord(before: Json, after: Json, p: Pair)
  {
    after.JObj? &&
    after.fields.Keys == (if before.JObj? then before.fields.Keys else {}) + {CityKey, CountryKey} &&
    after.fields[CityKey] == JStr(p.city) && after.fields[CountryKey] == JStr(p.country) &&
    forall k :: k in after.fields && k != CityKey && k != CountryKey ==>
                before.JObj? && k in before.fields && after.fields[k] == before.fields[k]
  }

  /**
   * The document `edit_json_file` writes back, or why it writes nothing.
   * Only element 0's `city` and `country` change; an empty array is written back as it was.
   */
  function EditFile(file: Option<Json>, city: string, country: string): (r: Result<Json, EditError>)
    ensures r == Err(NoFile) <==> file.None?
    ensures r == Err(KeyMissing) <==> file.Some? && !(file.value.JObj? && ParamsKey in file.value.fields)
    ensures r == Err(NotAnArray) <==> file.Some? && file.value.JObj? && ParamsKey in file.value.fields &&
                                      !file.value.fields[ParamsKey].JArr?
    ensures r == Err(NotIndexable) <==>
            file.Some? && file.value.JObj? && ParamsKey in file.value.fields &&
            file.value.fields[ParamsKey].JArr? && |file.value.fields[ParamsKey].items| > 0 &&
            !KeyAssignable(file.value.fields[ParamsKey].items[0])
    ensures r.Ok? ==>
            var before := file.value.fields;
            var after := r.value;
            after.JObj? && after.fields.Keys == before.Keys &&
            (forall k :: k in before && k != ParamsKey ==> after.fields[k] == before[k]) &&
            after.fields[ParamsKey].JArr? &&
            |after.fields[ParamsKey].items| == |before[ParamsKey].items| &&
            (forall i :: 1 <= i < |before[ParamsKey].items| ==>
                         after.fields[ParamsKey].items[i] == before[ParamsKey].items[i]) &&
            (|before[ParamsKey].items| == 0 ==> after == file.value) &&
            (|before[ParamsKey].items| > 0 ==>
               UpdatedRecord(before[ParamsKey].items[0], after.fields[ParamsKey].items[0], Pair(city, country)))
  {
    if file.None? then Err(NoFile)
    else
      var doc := file.value;
      if !doc.JObj? || ParamsKey !in doc.fields then Err(KeyMissing)
      else
        var params := doc.fields[ParamsKey];
        if !params.JArr? then Err(NotAnArray)
        else if |params.items| == 0 then Ok(doc)
        else
          var first := params.items[0];
          if !KeyAssignable(first) then Err(NotIndexable)
          else
            var updated := AssignKey(AssignKey(first, CityKey, JStr(city)), CountryKey, JStr(country));
            Ok(JObj(doc.fields[ParamsKey := JArr(params.items[0 := updated])]))
  }

  /** A record written by the edit reads back as the pair written. */
  lemma UpdatedRecordDecodes(before: Json, after: Json, p: Pair)
    requires UpdatedRecord(before, after, p)
    ensures DecodeParams(after) == Some(p)
  {
  }

  /** Save then load: once a loadable file is edited, it loads as exactly the new pair. */
  lemma EditThenLoad(file: Option<Json>, city: string, country: string)
    requires LoadDefaults(file).Ok?
    requires EditFile(file, city, country).Ok?
    ensures LoadDefaults(Some(EditFile(file, city, country).value)) == Ok(Pair(city, country))
  {
    var before := DefaultList(file.value).value;
    var doc := EditFile(file, city, country).value;
    var after := doc.fields[ParamsKey].items;
    assert DefaultList(file.value) == Some(file.value.fields[ParamsKey].items);
    assert DefaultList(doc) == Some(after);
    UpdatedRecordDecodes(before[0], after[0], Pair(city, country));
    forall i | 0 <= i < |after|
      ensures DecodeParams(after[i]).Some?
    {
      if i > 0 {
        assert after[i] == before[i];
      }
    }
  }

  /**
   * On a loadable object-form document the edit goes through exactly when element 0
   * is an object: a record stored in array form loads, but the edit panics on it.
   */
  lemma EditAcceptsLoadable(file: Option<Json>, city: string, country: string)
    requires LoadDefaults(file).Ok?
    requires file.value.JObj? && ParamsKey in file.value.fields
    ensures EditFile(file, city, country).Ok? <==> file.value.fields[ParamsKey].items[0].JObj?
    ensures !file.value.fields[ParamsKey].items[0].JObj? ==> EditFile(file, city, country) == Err(NotIndexable)
  {
    var list := DefaultList(file.value).value;
    assert list == file.value.fields[ParamsKey].items;
    assert DecodeParams(list[0]).Some?;
  }

  /** The first-run save: the created document edited once holds exactly the entered pair. */
  lemma EditCreatedDocument(city: string, country: string)
    ensures EditFile(Some(DefaultDocument), city, country) ==
            Ok(JObj(map[ParamsKey := JArr([EncodeParams(Pair(city, country))])]))
  {
    var r := EditFile(Some(DefaultDocument), city, country);
    var rec := r.value.fields[ParamsKey].items[0];
    var want := EncodeParams(Pair(city, country));
    assert rec.fields.Keys == want.fields.Keys;
    assert rec.fields == want.fields;
    assert r.value.fields[ParamsKey].items == [want];
    assert r.value.fields[ParamsKey] == JArr([want]);
    assert r.value.fields == map[ParamsKey := JArr([want])];
  }

  /** A stored record round-trips through the object form the program writes. */
  lemma EncodeDecode(p: Pair)
    ensures DecodeParams(EncodeParams(p)) == Some(p)
  {
  }

  // ---------------------------------------------------------------------------
  // The file itself, updated in place
  // ---------------------------------------------------------------------------

  /** `data.json`: every operation of the program reaches the same single file. */
  class Store {
    var file: Option<Json>

    constructor (initial: Option<Json>)
      ensures file == initial
    {
      file := initial;
    }

    /** The start of `main`: create the default document if the file cannot be opened. */
    method Bootstrap()
      modifies this
      ensures file.Some?
      ensures old(file).Some? ==> file == old(file)
      ensures old(file).None? ==> file == Some(DefaultDocument)
    {
      if file.None? {
        file := Some(DefaultDocument);
      }
    }

    /** `get_default_parameters`; its `filename` argument is ignored, so it has none here. */
    method Load() returns (r: Result<Pair, LoadError>)
      ensures r == LoadDefaults(file)
    {
      if file.None? {
        return Err(FileMissing);
      }
      var list := DefaultList(file.value);
      if list.None? {
        return Err(Malformed);
      }
      var records := DecodeAll(list.value);
      if records.None? {
        return Err(Malformed);
      }
      if |records.value| == 0 {
        return Err(NoDefaultParameters);
      }
      r := Ok(records.value[0]);
    }

    /** `edit_json_file`: update the parsed value in place, then write it back. */
    method Edit(city: string, country: string) returns (r: Result<(), EditError>)
      modifies this
      ensures r.Err? <==> EditFile(old(file), city, country).Err?
      ensures r.Err? ==> r.error == EditFile(old(file), city, country).error && file == old(file)
      ensures r.Ok? ==> file == Some(EditFile(old(file), city, country).value)
    {
      if file.None? {
        return Err(NoFile);
      }
      var doc := file.value;
      if !doc.JObj? || ParamsKey !in doc.fields {
        return Err(KeyMissing);
      }
      var params := doc.fields[ParamsKey];
      if !params.JArr? {
        return Err(NotAnArray);
      }
      if |params.items| != 0 {
        var first := params.items[0];
        if !KeyAssignable(first) {
          return Err(NotIndexable);
        }
        first := AssignKey(first, CityKey, JStr(city));
        first := AssignKey(first, CountryKey, JStr(country));
        params := JArr(params.items[0 := first]);
        doc := JObj(doc.fields[ParamsKey := params]);
      }
      file := Some(doc);
      r := Ok(());
    }
  }
}
