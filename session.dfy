/**
 * The control flow of `main`: bootstrap the store, run the first query (the stored
 * default, or a new default read from the user and saved), then the
 * "search another city?" prompts. Input is the sequence of lines the user types,
 * already trimmed. The fetches are recorded, not performed: their outcome is only
 * printed and never changes what the session does next, except that a response
 * with an empty `weather` array panics while it is displayed (not modelled).
 */
module Session {
  import opened Wrappers
  import opened JsonValue
  import opened ConfigStore
  import WeatherClient

  /** One call of `get_weather_info`. */
  datatype Fetch = Fetch(city: string, country: string)

  /** The URL a fetch requests: `get_weather_info` with the compiled-in key. */
  function FetchUrl(f: Fetch): (url: string)
    ensures |WeatherClient.Endpoint| + |WeatherClient.UnitsAndKey| + |WeatherClient.ApiKey| <= |url|
    ensures WeatherClient.Query(url, WeatherClient.ApiKey) == f.city + "," + f.country
  {
    WeatherClient.QueryOfRequestUrl(f.city, f.country, WeatherClient.ApiKey);
    WeatherClient.RequestUrl(f.city, f.country, WeatherClient.ApiKey)
  }

  /** Why the process panics before the first fetch. */
  datatype Abort =
    | LoadFailed(loadError: LoadError)   // the `todo!()` after `get_default_parameters`
    | SavePanicked(editError: EditError) // a panic inside `edit_json_file`

  datatype Ending =
    | DeclinedAtFirstPrompt  // "no" at the first prompt: `exit(0)`
    | DeclinedInLoop         // anything but "yes" inside the loop: `break`
    | Aborted(reason: Abort)

  /** What a session does: the fetches in order, whether `edit_json_file` rewrote the file, how it ends, and the file afterwards. */
  datatype Outcome = Outcome(fetches: seq<Fetch>, saved: bool, ending: Ending, file: Option<Json>)

  const Yes: string := "yes"
  const No: string := "no"

  /**
   * Line `i` of the input. Past the end `read_line` reads nothing and leaves its
   * buffer empty, so a missing line reads as "".
   */
  function Line(input: seq<string>, i: nat): string
  {
    if i < |input| then input[i] else ""
  }

  /** The fetch of round `k` of the loop that starts reading at line `start`. */
  function RoundFetch(input: seq<string>, start: nat, k: nat): Fetch
  {
    Fetch(Line(input, start + 3 * k), Line(input, start + 3 * k + 1))
  }

  /** The answer given at the end of round `k` of that loop. */
  function RoundAnswer(input: seq<string>, start: nat, k: nat): string
  {
    Line(input, start + 3 * k + 2)
  }

  /**
   * The fetches of the repeat loop that starts reading at line `start`: each round
   * reads a city, a country and an answer, fetches once, and goes on only on "yes".
   */
  function LoopFetches(input: seq<string>, start: nat): (r: seq<Fetch>)
    ensures |r| >= 1 && r[0] == RoundFetch(input, start, 0)
    ensures |r| == 1 <==> RoundAnswer(input, start, 0) != Yes
    decreases |input| - start
  {
    if Line(input, start + 2) == Yes then [RoundFetch(input, start, 0)] + LoopFetches(input, start + 3)
    else [RoundFetch(input, start, 0)]
  }

  /**
   * The loop read round by round: round `k` fetches lines `start + 3k` and
   * `start + 3k + 1`, every round but the last is answered "yes", the last is not.
   */
  lemma {:induction false} LoopFetchesRounds(input: seq<string>, start: nat)
    ensures var r := LoopFetches(input, start);
            (forall k :: 0 <= k < |r| ==> r[k] == RoundFetch(input, start, k)) &&
            (forall k :: 0 <= k < |r| - 1 ==> RoundAnswer(input, start, k) == Yes) &&
            RoundAnswer(input, start, |r| - 1) != Yes
    decreases |input| - start
  {
    var r := LoopFetches(input, start);
    if Line(input, start + 2) == Yes {
      var rest := LoopFetches(input, start + 3);
      LoopFetchesRounds(input, start + 3);
      assert r == [RoundFetch(input, start, 0)] + rest;
      forall k | 1 <= k < |r|
        ensures r[k] == RoundFetch(input, start, k)
        ensures RoundAnswer(input, start, k) == RoundAnswer(input, start + 3, k - 1)
      {
        assert r[k] == rest[k - 1] == RoundFetch(input, start + 3, k - 1);
      }
    }
  }

  /** The loop reads three lines a round, so the input bounds its number of rounds. */
  lemma {:induction false} LoopFetchesBound(input: seq<string>, start: nat)
    ensures var r := LoopFetches(input, start);
            |r| == 1 || start + 3 * (|r| - 1) <= |input|
    decreases |input| - start
  {
    if Line(input, start + 2) == Yes {
      LoopFetchesBound(input, start + 3);
    }
  }

  /** Where the first query leaves the session. */
  datatype FirstQuery = FirstQuery(fetch: Fetch, saved: bool, next: nat, file: Option<Json>)

  /**
   * The first query on a bootstrapped file: the stored pair unless it is the unset
   * ("", "") pair; otherwise lines 0 and 1 are saved (a returned error is ignored,
   * a panic aborts) and fetched.
   */
  function StartSession(file: Option<Json>, input: seq<string>): (r: Result<FirstQuery, Abort>)
    ensures LoadDefaults(file).Err? ==> r == Err(LoadFailed(LoadDefaults(file).error))
    ensures LoadDefaults(file).Ok? && LoadDefaults(file).value != Unset ==>
            var p := LoadDefaults(file).value;
            r == Ok(FirstQuery(Fetch(p.city, p.country), false, 0, file))
    ensures LoadDefaults(file) == Ok(Unset) ==>
            var edit := EditFile(file, Line(input, 0), Line(input, 1));
            (r.Err? <==> edit.Err? && IsPanic(edit.error)) &&
            (r.Err? ==> r.error == SavePanicked(edit.error)) &&
            (r.Ok? ==> r.value.fetch == Fetch(Line(input, 0), Line(input, 1)) && r.value.next == 2 &&
                       (r.value.saved <==> edit.Ok?) &&
                       r.value.file == (if edit.Ok? then Some(edit.value) else file))
  {
    match LoadDefaults(file)
    case Err(e) => Err(LoadFailed(e))
    case Ok(p) =>
      if p != Unset then Ok(FirstQuery(Fetch(p.city, p.country), false, 0, file))
      else
        var city, country := Line(input, 0), Line(input, 1);
        match EditFile(file, city, country)
        case Ok(doc) => Ok(FirstQuery(Fetch(city, country), true, 2, Some(doc)))
        case Err(e) =>
          if IsPanic(e) then Err(SavePanicked(e))
          else Ok(FirstQuery(Fetch(city, country), false, 2, file))
  }

  /** The whole session, from the file as it was before the program started. */
  function RunSession(file0: Option<Json>, input: seq<string>): (r: Outcome)
    ensures r.ending.Aborted? <==> |r.fetches| == 0
    ensures r.ending == DeclinedAtFirstPrompt ==> |r.fetches| == 1
    ensures r.ending == DeclinedInLoop ==> |r.fetches| >= 2
    ensures r.file.Some?
  {
    var file1 := BootstrapFile(file0);
    match StartSession(file1, input)
    case Err(reason) => Outcome([], false, Aborted(reason), file1)
    case Ok(q) =>
      if Line(input, q.next) == No then Outcome([q.fetch], q.saved, DeclinedAtFirstPrompt, q.file)
      else Outcome([q.fetch] + LoopFetches(input, q.next + 1), q.saved, DeclinedInLoop, q.file)
  }

  /**
   * A stored default other than ("", "") is fetched first; the file is left as
   * bootstrapped, and the first prompt is line 0.
   */
  lemma SessionStoredDefault(file0: Option<Json>, input: seq<string>, p: Pair)
    requires LoadDefaults(BootstrapFile(file0)) == Ok(p) && p != Unset
    ensures var r := RunSession(file0, input);
            r.fetches[0] == Fetch(p.city, p.country) && !r.saved && r.file == BootstrapFile(file0) &&
            (r.ending == DeclinedAtFirstPrompt <==> input != [] && input[0] == No)
  {
  }

  /**
   * With the unset default stored, lines 0 and 1 are saved and then fetched. A save
   * that returns an error is ignored: the pair is still fetched and the file stays
   * as bootstrapped. A save that panics ends the session before any fetch. A save
   * that goes through leaves a file that loads as exactly the entered pair.
   */
  lemma SessionNewUser(file0: Option<Json>, input: seq<string>)
    requires LoadDefaults(BootstrapFile(file0)) == Ok(Unset)
    ensures var r, edit := RunSession(file0, input), EditFile(BootstrapFile(file0), Line(input, 0), Line(input, 1));
            (edit.Err? && IsPanic(edit.error) ==>
               r.fetches == [] && !r.saved && r.ending == Aborted(SavePanicked(edit.error)) &&
               r.file == BootstrapFile(file0)) &&
            (!(edit.Err? && IsPanic(edit.error)) ==>
               r.fetches[0] == Fetch(Line(input, 0), Line(input, 1)) &&
               (r.saved <==> edit.Ok?) &&
               (!r.saved ==> r.file == BootstrapFile(file0)) &&
               (r.saved ==> LoadDefaults(r.file) == Ok(Pair(Line(input, 0), Line(input, 1)))) &&
               (r.ending == DeclinedAtFirstPrompt <==> Line(input, 2) == No))
  {
    var edit := EditFile(BootstrapFile(file0), Line(input, 0), Line(input, 1));
    if edit.Ok? {
      EditThenLoad(BootstrapFile(file0), Line(input, 0), Line(input, 1));
    }
  }

  /**
   * A document that loads as the unset pair but whose root is an array: the save
   * returns an error, which is ignored, and the entered pair is fetched anyway.
   */
  lemma SessionSaveErrorIgnored(input: seq<string>)
    ensures var doc := JArr([JArr([EncodeParams(Unset)])]);
            var r := RunSession(Some(doc), input);
            EditFile(Some(doc), Line(input, 0), Line(input, 1)) == Err(KeyMissing) &&
            r.fetches[0] == Fetch(Line(input, 0), Line(input, 1)) && !r.saved && r.file == Some(doc)
  {
    var doc := JArr([JArr([EncodeParams(Unset)])]);
    assert DefaultList(doc) == Some([EncodeParams(Unset)]);
    assert DecodeParams(EncodeParams(Unset)) == Some(Unset);
  }

  /**
   * First run without a file: the document is created, the two entered lines are
   * saved as the only record and fetched.
   */
  lemma SessionFirstRun(input: seq<string>)
    ensures var r := RunSession(None, input);
            r.saved && r.fetches[0] == Fetch(Line(input, 0), Line(input, 1)) &&
            r.file == Some(JObj(map[ParamsKey := JArr([EncodeParams(Pair(Line(input, 0), Line(input, 1)))])]))
  {
    BootstrapLoadsUnset();
    EditCreatedDocument(Line(input, 0), Line(input, 1));
  }

  /**
   * The two prompts compare differently: at the first prompt only "no" ends the
   * session (after its one fetch); inside the loop only "yes" goes on, and every
   * round fetches once.
   */
  lemma SessionPrompts(file0: Option<Json>, input: seq<string>, q: FirstQuery)
    requires StartSession(BootstrapFile(file0), input) == Ok(q)
    ensures var r, loop := RunSession(file0, input), q.next + 1;
            r.fetches[0] == q.fetch && r.saved == q.saved && r.file == q.file &&
            (Line(input, q.next) == No ==> r.fetches == [q.fetch] && r.ending == DeclinedAtFirstPrompt) &&
            (Line(input, q.next) != No ==>
               r.ending == DeclinedInLoop &&
               (forall k :: 0 <= k < |r.fetches| - 1 ==> r.fetches[k + 1] == RoundFetch(input, loop, k)) &&
               (forall k :: 0 <= k < |r.fetches| - 2 ==> RoundAnswer(input, loop, k) == Yes) &&
               RoundAnswer(input, loop, |r.fetches| - 2) != Yes)
  {
    var r := RunSession(file0, input);
    if Line(input, q.next) != No {
      var start := q.next + 1;
      var loop := LoopFetches(input, start);
      LoopFetchesRounds(input, start);
      assert r.fetches == [q.fetch] + loop;
      forall k | 0 <= k < |loop|
        ensures r.fetches[k + 1] == RoundFetch(input, start, k)
      {
        assert r.fetches[k + 1] == loop[k];
      }
    }
  }

  /** An empty answer (or the end of input) at the first prompt enters the loop. */
  lemma SessionEmptyAnswerContinues(file0: Option<Json>, input: seq<string>, q: FirstQuery)
    requires StartSession(BootstrapFile(file0), input) == Ok(q)
    requires Line(input, q.next) == ""
    ensures RunSession(file0, input).ending == DeclinedInLoop
  {
  }

  /** The repeat loop of `main` from line `start` on: the fetches it issues. */
  method RepeatLoop(input: seq<string>, start: nat) returns (fetches: seq<Fetch>)
    ensures fetches == LoopFetches(input, start)
  {
    fetches := [];
    var pos := start;
    while true
      invariant start <= pos
      invariant fetches + LoopFetches(input, pos) == LoopFetches(input, start)
      decreases |input| - pos
    {
      var city := Line(input, pos);
      var country := Line(input, pos + 1);
      var again := Line(input, pos + 2);
      ghost var before := fetches;
      fetches := fetches + [Fetch(city, country)];
      if again != Yes {
        assert LoopFetches(input, pos) == [Fetch(city, country)];
        break;
      }
      assert LoopFetches(input, pos) == [Fetch(city, country)] + LoopFetches(input, pos + 3);
      assert before + LoopFetches(input, pos) == fetches + LoopFetches(input, pos + 3);
      pos := pos + 3;
    }
  }

  /** `main`, run against the store with the given input lines. */
  method Run(store: Store, input: seq<string>) returns (fetches: seq<Fetch>, saved: bool, ending: Ending)
    modifies store
    ensures Outcome(fetches, saved, ending, store.file) == RunSession(old(store.file), input)
  {
    store.Bootstrap();
    var loaded := store.Load();
    if loaded.Err? {
      return [], false, Aborted(LoadFailed(loaded.error));
    }
    var city, country := loaded.value.city, loaded.value.country;
    var pos := 0;
    saved := false;
    if Pair(city, country) == Unset {
      city, country := Line(input, 0), Line(input, 1);
      pos := 2;
      var edited := store.Edit(city, country);
      if edited.Err? && IsPanic(edited.error) {
        return [], false, Aborted(SavePanicked(edited.error));
      }
      saved := edited.Ok?;
    }
    var answer := Line(input, pos);
    if answer == No {
      fetches, ending := [Fetch(city, country)], DeclinedAtFirstPrompt;
      return;
    }
    var more := RepeatLoop(input, pos + 1);
    fetches, ending := [Fetch(city, country)] + more, DeclinedInLoop;
  }
}
