# WeatherStation core, modelled in Dafny

WeatherStation is a command-line weather lookup (`src/main.rs`). It keeps one default
city/country pair in `data.json`, creates that file on first run, asks a new user for a
default, queries the OpenWeatherMap endpoint, and prints a report coloured by the weather
description with an emoji chosen by temperature. It then keeps asking
"search another city? (yes/no)".

This project models the part of that program that can be stated without a network or a
terminal:

- `json_value.dfy` (module `JsonValue`): the parsed JSON value (`serde_json::Value`) and
  serde_json's key assignment `v[key] = x`. That assignment turns `null` into an object
  and panics on any other non-object.
- `config_store.dfy` (module `ConfigStore`): the document in `data.json` as an
  `Option<Json>` (`None`: the file does not exist). It holds the default document written
  by `create_data_json` and the bootstrap at the start of `main`. It also holds
  `get_default_parameters` as `LoadDefaults`, and `edit_json_file` as `EditFile`. The
  class `Store` holds the one file. `Bootstrap` and `Edit` update it in place, and
  `Load` only reads it.
- `display.dfy` (module `Display`): `get_temp_emoji`, the description-to-colour `match`
  of `display_weather_info`, and the Fahrenheit figure over the reals.
- `weather_client.dfy` (module `WeatherClient`): the request URL of `get_weather_info`.
- `session.dfy` (module `Session`): the control flow of `main`. The input is the
  sequence of lines typed, already trimmed. The result is the fetches issued in order,
  whether the save rewrote the file, how the session ended, and the file afterwards.
  `RunSession` is the specification. `Run` is the imperative version over a `Store`,
  with its repeat loop in `RepeatLoop`, and it is proved equal to `RunSession`.

Behaviour taken from the code, including where the code differs from its documentation:

- The first query uses the stored pair unless both fields are empty: the test is
  "not both empty", not "both non-empty". A stored pair with one empty field is fetched
  as it is. Nothing enforces that both fields are empty or both are set.
- At the first prompt only the exact answer "no" ends the session. Inside the loop only
  the exact answer "yes" continues. An empty answer therefore enters the loop and then
  leaves it.
- At the end of input, `read_line` returns nothing and leaves its buffer empty, so a
  missing line reads as "" (`Session.Line`).
- A derived serde struct also deserialises from a JSON array of its fields in order.
  So a record `["London","GB"]` loads, and so does a document `[[...]]`. Loading also
  needs every element of `default_parameters` to be a record, not just element 0.
- `edit_json_file` has two kinds of failure. It returns an error when there is no file
  or no `default_parameters` key (this includes a root that is not an object), and the
  caller ignores it. It panics when `default_parameters` is not an array
  (`as_array().unwrap()`). It also panics when element 0 is neither an object nor `null`,
  for instance a record in array form. These panics are not ignored: they end the
  process. The model returns them as `EditError` values (`IsPanic`) instead of excluding
  them by a precondition, and the session reports them as `Aborted(SavePanicked(..))`.
  The failed load, which reaches `todo!()`, ends as `Aborted(LoadFailed(..))`.
- An empty `default_parameters` array is written back unchanged.
- The emoji chain re-tests the lower bound of every bin. `TempEmoji`'s contract shows
  those tests are redundant: the five bins are half-open, disjoint and cover all reals.

## Model

| member | source | states |
|---|---|---|
| `JsonValue.AssignKey` | src/main.rs:111-112 | `v[key] = x` on an object or `null`: the key holds `x`, all other keys of an object keep their values, and `null` becomes a one-key object |
| `ConfigStore.DecodeParams` | src/main.rs:15-18 | a record is read from an object with string `city` and `country` (other keys ignored) or from a two-string array; any object with both string fields decodes, and so does any array of exactly two strings |
| `ConfigStore.DefaultList` | src/main.rs:21-24 | the shapes `Config` accepts: an object whose `default_parameters` is an array (other keys ignored), or an array holding exactly one array; anything else is rejected |
| `ConfigStore.DecodeAll` | src/main.rs:22-24 | `Vec<DefaultParameters>` decodes exactly when every element decodes, and then element-wise, with the same length |
| `ConfigStore.EncodeDecode` | src/main.rs:15-18 | a record written in object form decodes back to itself |
| `ConfigStore.LoadDefaults` | src/main.rs:72-89 | a missing file gives `FileMissing`, an empty array gives "No default parameters found", success means the array is non-empty and all of it decodes, and the result is element 0's pair |
| `ConfigStore.BootstrapFile` | src/main.rs:200-206 | an existing file is left untouched; an absent one becomes `{"default_parameters":[{"city":"","country":""}]}` |
| `ConfigStore.BootstrapIdempotent` | src/main.rs:200-206 | bootstrapping twice equals bootstrapping once |
| `ConfigStore.BootstrapLoadsUnset` | src/main.rs:182-189 | the created document loads as ("", "") |
| `ConfigStore.EditFile` | src/main.rs:93-121 | each error condition exactly (no file, no key, not an array, element 0 not indexable); on success the other top-level keys, the array length, elements 1.. and element 0's other keys are unchanged, element 0's `city`/`country` are the new strings, and an empty array leaves the document as it was |
| `ConfigStore.UpdatedRecordDecodes` | src/main.rs:111-112 | an element 0 updated by the edit decodes as the new pair |
| `ConfigStore.EditThenLoad` | src/main.rs:106-113 | after a successful edit of a loadable file, loading returns exactly the new pair |
| `ConfigStore.EditAcceptsLoadable` | src/main.rs:106-112 | on a loadable object-form document the edit succeeds exactly when element 0 is an object, and otherwise panics |
| `ConfigStore.EditCreatedDocument` | src/main.rs:182-189 | editing the created document gives `{"default_parameters":[{"city":c,"country":k}]}` |
| `ConfigStore.Store.Bootstrap` | src/main.rs:200-206 | the file exists afterwards; an existing file is unchanged, an absent one is the default document |
| `ConfigStore.Store.Load` | src/main.rs:72-89 | reads the store without changing it and returns `LoadDefaults` of it |
| `ConfigStore.Store.Edit` | src/main.rs:93-121 | on error the file is not rewritten and the error is `EditFile`'s; on success the file is `EditFile`'s document |
| `Display.TempEmoji` | src/main.rs:166-178 | each emoji holds exactly on its half-open bin: (-inf,0) snow, [0,10) cloud, [10,20) sun behind cloud, [20,30) sun behind small cloud, [30,inf) fire |
| `Display.TempEmojiBoundaries` | src/main.rs:166-178 | -0.1 gives snow, 0 and 9.9 give cloud, 10 gives sun behind cloud, 20 and 29.9 give sun behind small cloud, 30 gives fire |
| `Display.TempEmojiMonotone` | src/main.rs:166-178 | a warmer temperature never gets a colder bin |
| `Display.GlyphsDistinct` | src/main.rs:168-176 | the five printed emoji strings are pairwise different |
| `Display.DescriptionStyle` | src/main.rs:154-160 | each style holds exactly on its own table ("clear sky", the three cloud strings, the eight haze strings, the four wet strings); every other description gets no styling |
| `Display.DescriptionTablesDisjoint` | src/main.rs:154-160 | no description is in two tables, so the order of the match arms does not matter |
| `Display.DescriptionStyleExamples` | src/main.rs:154-160 | "clear sky" is bright yellow, "thunderstorm" bright cyan, "overcast clouds" dimmed; "tornado" and "Clear sky" get no styling (the match is exact) |
| `Display.Fahrenheit` | src/main.rs:146-148 | `t * 1.8 + 32` over the reals: the Fahrenheit figure exceeds the Celsius one exactly above -40, and equals it exactly at -40 |
| `Display.FahrenheitExamples` | src/main.rs:146-148 | 0 C is 32 F, 100 C is 212 F, -40 C is -40 F |
| `WeatherClient.RequestUrl` | src/main.rs:66 | the URL is the endpoint, then the city verbatim, a comma, the country verbatim, `&units=metric&appid=`, then the key |
| `WeatherClient.QueryOfRequestUrl` | src/main.rs:66 | the part between endpoint and suffix is exactly `city,country` |
| `WeatherClient.RequestUrlInjective` | src/main.rs:66 | with the same key and comma-free cities, equal URLs mean equal city and country |
| `WeatherClient.RequestUrlCommaCollision` | src/main.rs:66 | no escaping: ("a,b", "c") and ("a", "b,c") request the same URL |
| `Session.LoopFetches` | src/main.rs:270-311 | the loop fetches at least once, its first fetch is the first city/country pair read, and it stops after one round exactly when the answer is not "yes" |
| `Session.LoopFetchesRounds` | src/main.rs:270-311 | round k fetches lines start+3k and start+3k+1; every round but the last was answered "yes", and the last was not |
| `Session.LoopFetchesBound` | src/main.rs:270-311 | a round after the first needs three more input lines, so the input bounds the number of rounds |
| `Session.RepeatLoop` | src/main.rs:270-311 | the imperative loop issues exactly the fetches of `LoopFetches` |
| `Session.FetchUrl` | src/main.rs:65-66 | every fetch requests a URL whose query part is exactly `city,country`, sent with the compiled-in key |
| `Session.StartSession` | src/main.rs:212-262 | a failed load aborts (the `todo!()`); a stored pair that is not both empty is fetched with nothing saved and the first prompt at line 0; with the unset pair, a panicking save aborts, and otherwise lines 0 and 1 are fetched, the first prompt is line 2, the save flag is exactly whether the edit succeeded, and the file is the edited document or else unchanged |
| `Session.RunSession` | src/main.rs:199-317 | a session aborts exactly when it fetches nothing; "no" at the first prompt means exactly one fetch; leaving the loop means at least two fetches; the file exists afterwards |
| `Session.SessionStoredDefault` | src/main.rs:228-237 | a stored pair other than ("", "") is fetched first, nothing is saved, and the first prompt is line 0 |
| `Session.SessionNewUser` | src/main.rs:238-262 | with the unset pair stored: a panicking save ends the session with no fetch and the file as bootstrapped; otherwise lines 0 and 1 are fetched first, the save flag is exactly whether the edit succeeded, a failed save leaves the file as bootstrapped, a successful one leaves a file that loads as that pair, and the first prompt is line 2 |
| `Session.SessionSaveErrorIgnored` | src/main.rs:249-252 | a document that loads as the unset pair but whose root is an array makes the save return an error, which is ignored: the entered pair is still fetched and the file is unchanged |
| `Session.SessionFirstRun` | src/main.rs:200-262 | without a file, the entered pair is saved as the only record and fetched first |
| `Session.SessionPrompts` | src/main.rs:264-316 | "no" at the first prompt ends after one fetch; any other answer enters the loop, whose rounds are as in `LoopFetchesRounds` and which ends at the first answer that is not "yes" |
| `Session.SessionEmptyAnswerContinues` | src/main.rs:269 | an empty answer or the end of input at the first prompt enters the loop |
| `Session.Run` | src/main.rs:199-317 | the imperative `main` over a `Store` issues the fetches, saves, ends and leaves the file exactly as `RunSession` says |

## Left out

- The HTTP request and the response (`reqwest::blocking::get`, `.json()`, src/main.rs:67-69) are network and library calls. A fetch is recorded as a `Fetch` value. Its outcome is only printed and does not change the control flow, except for the display panic described below, so no outcome is modelled.
- The report text of `display_weather_info`: `{:.1}` formatting, `println!`/`eprintln!`, and the terminal escapes of `colored`. A response whose `weather` array is empty panics at `weather[0]`; responses are not modelled, so neither is this panic.
- Floating point: temperatures are `real`. A NaN temperature falls through to the fire emoji in the source, and `real` has no NaN. The f64 rounding of `t * 1.8 + 32` is not modelled.
- JSON text: parsing and printing (compact or pretty) are library code. The store holds a value, so a file that exists but does not parse cannot be represented. In the source such a file makes loading fail, which ends at `todo!()`.
- File-system failures: the model assumes file creation and writing succeed. In the source a failed `create_data_json` is only reported. The source also creates the file after any open error, not only when the file is missing.
- Standard input: the `.expect` panics on read errors, and `trim`. The lines are given already trimmed.
- The banner, `thread::sleep`, and the difference between `exit(0)` and falling off the end of `main`. Both endings are kept apart as `DeclinedAtFirstPrompt` and `DeclinedInLoop`.
- `get_default_parameters` ignores its `filename` argument and always opens `data.json`. It is the same file `edit_json_file` is given, so the model has a single store, and `Store.Load` takes no file name.
