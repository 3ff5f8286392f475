# KYC behavioural pipeline — a Dafny model

This project models the behavioural-biometrics core of a KYC (know-your-customer) credit
application. It covers five parts:

- **Tracking script** (`Tracking`). The browser script watches one form. It counts page-level
  events (mouse moves, clicks, scrolls, resizes, Tab and Enter presses) and per-control events
  (focus, blur, hover, input, Backspace/Delete, copy, paste). On submit it builds a JSON body
  with these counts, the time stamps, the visit order of the fields and a device class guessed
  from the user agent.
- **`/api/save`** (`App.Save`). It validates the body, writes a session row (INSERT OR REPLACE)
  and appends one field row per entry of `fields`. The `fields` type check comes only after the
  session row is written.
- **`/api/predict`** (`App.Predict`). It turns the body into twenty features, assembles them in
  the classifier's column order and classifies them. It then appends to the audit log and, for
  a Suspicious verdict, sends an alert built from the form values. A failing alert call is
  swallowed.
- **Feature extraction** (`FeatureExtractor`). It covers the per-field aggregates (sums, means,
  standard deviation, maximum, ratios), the field-order deviation, the scroll density and the
  label-encoded device class.
- **Training-set construction** (`GenerateCases`). It covers the canonical field order, the
  per-case swap and shuffle of that order, the start and end times of a generated case, the
  training-side `calc_deviation`, and the training-side device map.

`Database` models the two SQLite tables as a map of session rows plus an append-only sequence
of field rows with AUTOINCREMENT ids. `Payload` is the shape of the JSON body, with every key
optional. `Strings` holds the string functions the code relies on: `join`/`split`, `strip`, and
case-insensitive search. `Pipeline` connects the browser to the server. It proves that a body
the script builds is always saved, that it always extracts with one field per distinct control
name, the true duration and a known device, and that its page-level features (Tab count, Enter,
clicks, scrolls, viewport changes) come out equal to the counts of the user's events. The
per-field counters are stated on the script's side (`Tracking.RunReport`) but are not carried
through to the aggregated features.

Inputs that the code reads from its environment are parameters:

- the clock (`Date.now()`, `datetime.now()`), given as event times and the `now` string
- the trained classifier, given as a width plus a prediction function
- the square root behind `np.std`
- the client address
- the outcome of the webhook call
- the session id and the user agent
- the random draws of the case generator

Where the design description and the code disagree, the model follows the code:

- A feature vector whose width differs from the model's is answered with 500, not 400. The
  `ValueError` at app.py:143-144 is caught by the outer handler.
- Field rows are inserted without checking that their session exists. Foreign keys are never
  switched on for the connection.
- Saving the same body again replaces the session row but appends the field rows a second
  time (`App.ResaveDuplicatesFieldRows`).
- The serving-side `fieldOrderDeviation` compares the body's own `field_order`, filtered to
  focused fields, with a prefix of itself. It never compares it with the canonical order.
  It is therefore 0 for every order whose fields were all focused. The training-side
  `calc_deviation` compares with the canonical order. `GenerateCases.DeviationsDisagree`
  exhibits a body on which the two give 0 and 2.
- Serving encodes devices as desktop 0, mobile 1, tablet 2, unknown 3. Training maps desktop 0
  and mobile 1 and sends everything else to 0 (`GenerateCases.DeviceCodesDisagreeElsewhere`).

## Model

| member | source | states |
|---|---|---|
| Strings.Split | generate_cases.py:319 | splitting yields at least one piece, no piece contains the separator, and joining the pieces with the separator gives the text back |
| Strings.SplitJoin | app.py:81 | a non-empty list of comma-free names joined with "," and split on ',' gives the list back |
| Strings.Strip | app.py:167 | the result is a slice of the input with only whitespace cut from both ends, and it neither starts nor ends with whitespace |
| Payload.Lookup | feature_extractor.py:10 | `get` on a JSON object finds nothing exactly when no entry has that name, and otherwise returns the value of an entry with that name |
| Payload.LookupAt | app.py:95 | in an object with distinct names, looking up the k-th entry's name returns the k-th entry's value |
| FeatureExtractor.DeviceCode | feature_extractor.py:48-52 | LabelEncoder over the sorted classes: desktop is 0, mobile 1 and tablet 2; every other string, "unknown" included, is 3 |
| FeatureExtractor.UnrecognisedDeviceIsUnknown | feature_extractor.py:49-52 | a device string the encoder rejects gets the code of "unknown" |
| FeatureExtractor.MeanIsMean | feature_extractor.py:25-27 | the mean of a non-empty column times its count is the column sum, it lies between the smallest and the largest entry, and a constant column has that constant as its mean |
| FeatureExtractor.Max | feature_extractor.py:33 | the maximum is an element of the column and bounds every element |
| FeatureExtractor.MaxOrZero | feature_extractor.py:33 | `max(...) if fields else 0` is 0 for no fields, and otherwise is attained by some field and bounds all of them |
| FeatureExtractor.PositiveRatio | feature_extractor.py:36-39 | the share of positive entries lies in [0, 1] and is 0 exactly when no entry is positive |
| FeatureExtractor.CountPositiveCounts | feature_extractor.py:36-39 | the `sum(1 for ... if ... > 0)` count equals the number of positions holding a positive value |
| FeatureExtractor.PositiveRatioValue | feature_extractor.py:36-39 | for a non-empty column the ratio is the number of positions holding a positive value divided by the number of values |
| FeatureExtractor.Variance | feature_extractor.py:30 | the population variance is non-negative and is 0 for a single field |
| FeatureExtractor.ConstantHasZeroVariance | feature_extractor.py:30 | fields that all took the same time have variance 0 |
| FeatureExtractor.StdOrZero | feature_extractor.py:30 | the standard deviation is 0 with no fields and the square root of 0 with one field |
| FeatureExtractor.ScrollDensity | feature_extractor.py:46 | the density is 0 when the duration is not positive; otherwise the density times the duration in milliseconds is 1000 times the scroll count, i.e. scrolls per second |
| FeatureExtractor.VisitedIsFilter | feature_extractor.py:10 | a name is in the visited list exactly when it is in the order and its field was focused, and it occurs there as often as in the order (a focused name) or never (an unfocused one) |
| FeatureExtractor.VisitedConcat | feature_extractor.py:10 | visiting keeps the order: the visited entries of a concatenation are those of the first part followed by those of the second, so the visited list is a subsequence of the order |
| FeatureExtractor.VisitedExtremes | feature_extractor.py:10 | when every name was focused the visited list is the whole order; when none was it is empty |
| FeatureExtractor.Mismatches | feature_extractor.py:11 | the count of differing positions is at most n, and is 0 exactly when the first n elements agree |
| FeatureExtractor.MismatchesCountsPositions | generate_cases.py:322 | the zip-and-compare count equals the number of differing positions |
| FeatureExtractor.OrderDeviation | feature_extractor.py:8-12 | the deviation is the number of positions where the visited list differs from the same-length prefix of the order; it is at most the number of visited fields, and is 0 exactly when the visited list is a prefix of the order; hence it is 0 whenever all or none of the fields were focused |
| FeatureExtractor.VisitedIgnoresUnfocused | feature_extractor.py:8-12 | the deviation depends on `fields` only through which names were focused |
| FeatureExtractor.Summarise | feature_extractor.py:21-39 | the field count is the number of entries; the totals are column sums; everything is 0 for no fields; the means are sums over the count; the ratios lie in [0, 1] and are 0 exactly when no field pasted (deleted); the maximum paste count is attained by some field and bounds all of them |
| FeatureExtractor.SummariseRatios | feature_extractor.py:36-39 | with at least one field, the paste (delete) ratio is the number of fields with a positive paste (delete) count over the number of fields |
| FeatureExtractor.FromFields | feature_extractor.py:14-81 | the per-field features are the aggregates of `fields`; the scroll density is that of the body's scroll count and duration, 0 for a non-positive duration; the deviation is the order deviation of the body's `field_order`, bounded by the visited fields and 0 when every listed field was focused; the device code lies in 0..3 and is 3 when `deviceType` is absent; Enter and Tab come from the body |
| FeatureExtractor.PassedThrough | feature_extractor.py:54-58 | duration, scrolls, clicks and viewport changes are copied from the body, with 0 for an absent key |
| FeatureExtractor.Extract | feature_extractor.py:14-16 | extraction fails exactly when `fields` is not an object; an absent `fields` counts as the empty object, with zero fields and zero deviation |
| Database.CreateTables | database.py:5-48 | an existing database is kept as it is; a missing one is created empty and valid |
| Database.CreateTablesIdempotent | database.py:10-11 | creating the tables twice equals creating them once |
| Database.UpsertSession | database.py:51-79 | after INSERT OR REPLACE the session id holds the new row (scroll density left NULL) and every other session is unchanged; the field rows are untouched and validity is kept |
| Database.UpsertLastWriteWins | database.py:55-56 | writing two rows with the same session id leaves only the second |
| Database.InsertField | database.py:81-105 | a field insert appends exactly one row with the next AUTOINCREMENT id, touches no session and keeps validity |
| Payload.KeyCount | app.py:55 | `not data` holds exactly when the body has no key at all |
| App.Absent | app.py:60 | a key is reported missing exactly when it is listed and absent from the body |
| App.AbsentConcat | app.py:60 | the check distributes over a split of the key list, so the missing keys are reported in the order they are listed |
| App.MissingRequired | app.py:59-63 | a required key is reported exactly when it is absent, and the list is empty exactly when the body is complete |
| App.Flag | app.py:73 | `int(bool(x))` is 1 exactly when the flag is present and true, otherwise 0 |
| App.SessionDataOf | app.py:68-82 | the session row copies the session id (default "unknown"), the times, the submit delay and the four counters (default 0) and a present device (default "unknown"), takes the flags as 0/1, and stores the comma-joined field order ("" when absent) |
| App.FocusOrderRoundTrip | app.py:81 | the stored comma-joined focus order splits back into the body's field order |
| App.FieldDataOf | app.py:96-107 | a field row carries the session id and the entry name, takes `delete` into `delete_count`, and copies the value, time spent, hover time, copy, paste, change and focus counts, with missing counts 0 and a missing value "" |
| App.InsertFields | app.py:95-107 | one row is appended per entry, in entry order, with sessions unchanged and validity kept |
| App.Save | app.py:50-114 | the answer is 400 for an empty body or missing keys, with the session row written even for a non-object `fields`, and 200 exactly for a complete body whose `fields` is an object; on success one row is appended per entry, the other sessions are untouched and the duration is written back into the body |
| App.ResaveDuplicatesFieldRows | app.py:87-107 | saving a body twice keeps one session row but stores its field rows twice |
| App.SavedRowsBelongToSession | app.py:95-107 | a successful save adds exactly one row per entry for its session |
| App.AsRecord | feature_extractor.py:60-81 | the extracted record has exactly the keys of FEATURE_ORDER |
| App.Assemble | app.py:132-136 | assembly succeeds exactly when every name is in the record, and then yields the values in name order; otherwise it reports the first name of the list that the record lacks, as the KeyError of the list comprehension does |
| App.AssembleExtracted | app.py:133 | an extracted record always assembles, never giving the missing-feature 400, and yields the twenty features in column order |
| App.FeatureAt | app.py:25-46 | the record entry under the i-th FEATURE_ORDER name is the i-th vector position |
| App.AppendLog | app.py:155-159 | the header goes first only into an empty log file, and a well-formed log stays well-formed |
| App.FormValue | app.py:168 | a field absent from the form reads as ""; a non-empty result is the value of an entry with that name |
| App.FormValueAt | app.py:168 | with distinct names, the form value under an entry's name is that entry's value, or "" when it has none |
| App.AlertFor | app.py:164-180 | the alert carries the session, the Suspicious verdict and the score; the client is the stripped "nom prenom" and has no surrounding whitespace; amount, income, cin, address, profession and duration are the form values; the ip and the timestamp are the request's; the link points at the session |
| App.Score | app.py:146-198 | the verdict is Suspicious exactly when the class is 1; the log gains one entry (after a header if it was empty); an alert is attempted exactly for Suspicious |
| App.Predict | app.py:119-202 | an empty body gets the no-data 400, and that is the only 400; the answer is 200 exactly when the body is non-empty, `fields` is an object or absent, and the model takes twenty columns; any other answer adds no log line and no alert; a 200 carries the classifier's verdict and score, logged and alerted as Score states |
| App.WebhookFailureIsSwallowed | app.py:186-192 | a raising webhook changes neither the answer nor the log |
| Tracking.FieldName | static/tracking.js:29 | a control's key is its name, else its id, else "unnamed", so it is never empty |
| Tracking.FirstOccurrences | static/tracking.js:53-55 | the deduplicated list has the same members as the input and no repeats |
| Tracking.FirstOccurrencesOrdered | static/tracking.js:53-55 | the deduplicated list keeps the order of first occurrence |
| Tracking.Init | static/tracking.js:2-12 | a fresh page satisfies the state invariant (an entry for every control's name), with an empty visit order, no Tab count and no Enter |
| Tracking.ListenCounts | static/tracking.js:50-95 | a control's listener adds one to its focus, copy, paste or Backspace/Delete counter exactly for that event, counts an input only when the value changed, and remembers the input value |
| Tracking.PublishSelected | static/tracking.js:58-95 | after a control event the control's entry takes the just-updated copy, paste, delete or change counter of that event, and a blur publishes the value and the focus count; each of these attributes keeps its earlier value for the other events |
| Tracking.StepDurations | static/tracking.js:58-69 | with a clock reading no earlier than every recorded start, one event never lowers any entry's time spent or hover time and keeps every start no later than that reading |
| Tracking.OnControl | static/tracking.js:50-95 | a control event changes only that control's own counters and its name's entry; only a focus can extend the visit order, and the page counters stay as they were |
| Tracking.Step | static/tracking.js:14-22 | every event keeps the state invariant; an event not aimed at a control leaves all controls and entries alone |
| Tracking.Run | static/tracking.js:27-48 | any event history keeps the invariant, the controls and one entry key per distinct control name |
| Tracking.RunFieldOrder | static/tracking.js:50-56 | the visit order is the first occurrences of the focused controls' names |
| Tracking.FieldOrderIsFirstFocusOrder | static/tracking.js:53-55 | the visit order has no repeats, holds exactly the focused names and lists them by first focus |
| Tracking.RunKeyCounters | static/tracking.js:18-22 | the Tab count equals the Tab presses, and Enter is set exactly when Enter was pressed |
| Tracking.RunPageCounters | static/tracking.js:14-17 | mouseMoved is set exactly when the mouse moved, and clicks, scrolls and resizes equal their event counts |
| Tracking.Edits | static/tracking.js:71-79 | the changes counted never exceed the input events on that control |
| Tracking.RunClosure | static/tracking.js:30-95 | each control counts exactly its focus, copy, paste and Backspace/Delete events and the inputs that changed its value, and remembers the last input value |
| Tracking.FocusesAtLastBlur | static/tracking.js:62 | the focus count published at the last blur never exceeds the focuses, and is 0 before any blur |
| Tracking.RunReport | static/tracking.js:58-95 | a uniquely named control's entry reports its copy, paste, delete and change counts, with its value and focus count as of its last blur |
| Tracking.RunDurations | static/tracking.js:58-69 | with non-decreasing non-negative clock readings, no time spent or hover time is ever negative |
| Tracking.DetectDeviceType | static/tracking.js:162-167 | the result is mobile exactly when the agent mentions "mobile" in any case, tablet exactly when it mentions "tablet" but not "mobile", and desktop otherwise |
| Tracking.AllFilled | static/tracking.js:104 | the `every` test holds exactly when every entry has a non-empty value |
| Tracking.Entries | static/tracking.js:121 | the posted `fields` object lists the entry keys in order, with distinct names, and looks up each key's report |
| Tracking.Submit | static/tracking.js:98-122 | the body carries the entries as an object, the duration and submit delay from the clock, fastFill exactly when under 8000 ms with every value filled, the visit order and the detected device; the browser's own session id, start time, the end time read at submit, the mouse flag, the four counters and the Enter flag are copied as they are, and no other key is sent |
| GenerateCases.FieldNamesDistinct | generate_cases.py:23 | the canonical names are distinct and contain no comma |
| GenerateCases.CalcDeviation | generate_cases.py:316-324 | the deviation is at most 8; a missing order or one of the wrong length gives 8; otherwise it counts the positions differing from the canonical order and is 0 exactly for the canonical order |
| GenerateCases.DeviationOfJoined | generate_cases.py:319-322 | a permutation of the canonical names, joined and then measured, gives the number of positions it moved |
| GenerateCases.CanonicalDeviationIsZero | generate_cases.py:316-322 | the canonical order has deviation 0 |
| GenerateCases.Swap | generate_cases.py:98 | a swap exchanges two positions, keeps the rest and is a permutation |
| GenerateCases.ApplySwaps | generate_cases.py:95-98 | a series of swaps is a permutation |
| GenerateCases.Shuffle | generate_cases.py:104 | Fisher–Yates with valid draws is a permutation |
| GenerateCases.PermuteOrder | generate_cases.py:92-105 | for draws of the sizes the case type makes (one to three swaps for hesitant, at most one for fast and paste_abuse, none otherwise), the generated order is always a permutation of the canonical names; cases outside hesitant/fast/paste_abuse/hybrid_confusing keep the canonical order, as do fast and paste_abuse when no swap is drawn |
| GenerateCases.FocusOrderText | generate_cases.py:105 | the stored text splits back into the generated order, and its deviation counts the displaced positions |
| GenerateCases.SwapMovesTwo | generate_cases.py:101-102 | swapping two distinct positions of a repeat-free order displaces exactly those two |
| GenerateCases.SingleSwapDeviation | generate_cases.py:99-102 | a case with exactly one swap has training deviation 2 |
| GenerateCases.ParamsOf | generate_cases.py:158-169 | exactly the ten case types have parameters, each with a positive duration range and 0/1 mouse and target |
| GenerateCases.SessionTimes | generate_cases.py:172-174 | an unknown case type fails (the KeyError); otherwise the end is the start plus the duration |
| GenerateCases.EndAfterStart | generate_cases.py:173-174 | a duration drawn from a case's range puts the end strictly after the start |
| GenerateCases.TrainDeviceCode | generate_cases.py:314 | the training device code is 1 exactly for "mobile", else 0, including a missing device |
| GenerateCases.DeviceCodesAgreeOnGenerated | generate_cases.py:179 | on the devices the generator draws, training and serving codes agree |
| GenerateCases.DeviceCodesDisagreeElsewhere | generate_cases.py:314 | any other device is 0 in training but 2 or 3 when serving |
| GenerateCases.DeviationsDisagree | generate_cases.py:316-322 | for a fast case with the first two names swapped and every field focused, serving deviation is 0 while training deviation is 2 |
| Pipeline.BrowserBodyIsSaved | static/tracking.js:106-122 | a body the script builds has every required key and an object `fields`, so the save endpoint stores it and answers success |
| Pipeline.BrowserDeviceIsKnown | static/tracking.js:162-167 | the script's device class is never encoded as unknown, and encodes as mobile exactly when the agent mentions "mobile" |
| Pipeline.BrowserFeatures | static/tracking.js:98-122 | a recorded session always extracts, with one field per distinct control name, the true duration and a known device code |
| Pipeline.BrowserCounterFeatures | static/tracking.js:14-22 | a recorded session's Tab count, Enter flag, clicks, scrolls and viewport changes equal the counts of the user's events |

## Left out

- HTTP, Flask, CORS and JSON parsing are left out. The model types the body, so bodies whose
  values have another JSON type than the one the code expects are outside the model. Some of
  them raise and get a 500 (a body that is not JSON, a string `end_time`, a non-object entry
  inside `fields`). Others are accepted by the code and are not modelled either: a string
  `field_order` is joined character by character, a null `session_id` is stored as NULL, and a
  boolean `start_time` is subtracted as 0 or 1.
- Numbers with a fractional part are outside the model: every numeric field of the body is an
  integer here. The code accepts them (a `duration_ms` of 1500.5, a float `timeSpent` or
  `start_time`): feature_extractor.py does floating-point arithmetic on them, and app.py binds
  them through sqlite3 into the INTEGER columns, which keep a non-integral value as a REAL. The browser script only sends integers, because
  `Date.now()` and its counters are whole numbers.
- Console output, the exports and the dashboard routes are not modelled. The same holds for
  `train_xgboost.py`, `build_training_dataset.py` and `kyc_fraud_demo.py`. They are outside
  the core.
- Nothing of generate_cases.py is modelled beyond `calc_deviation`, the device map,
  `permute_order_for_case` and the start and end of `generate_case`. The random field values,
  the per-case count generators, the SQLite writes and the pandas aggregation are left out.
  The training-side `scrollDensity` with its 1e-5 term is left out too.
- Randomness is left out. `random.randint`, `random.sample`, `random.shuffle`, `uuid4` and
  `Math.random` become given draws (`GenerateCases.Draws`). The session id and the user agent
  are plain inputs.
- Concurrent requests and the file and database side effects as I/O are not modelled. The log
  file and the alert calls are traces the handlers extend.
- The webhook request itself is not modelled, nor the `fetch` calls and the UI messages of the
  submit handler.
- The `if (!form) return` branch of the script is left out. Only a page with a form is modelled.
- Whitespace in `Strings.IsSpace` and case folding in `Strings.Lower` are ASCII only. Python's
  `str.strip` and JavaScript's `/i` also cover Unicode.
- JavaScript lists integer-like object keys before the others. The model keeps insertion order
  for every key.
- FeatureExtractor.Summarise: the standard deviation is stated as 0 with no fields and as
  `sqrt(0.0)` with one field, where `sqrt` is the given square root. With more fields it is
  `sqrt` of the exact population variance, and `sqrt` is a parameter because floating-point
  square roots are not modelled. Means are exact rationals
  (no floating-point rounding).
- App.Save: integers are unbounded. Python's sqlite3 refuses to bind an integer outside the
  signed 64-bit range (-2^63 to 2^63 - 1) with `OverflowError`, which app.py:112-114 answers
  with 500. For `start_time`, `end_time` or a counter that happens before anything is written.
  For a count inside `fields` it happens after the session row and the earlier field rows have
  been committed (database.py:81-105 commits each insert). The model answers those bodies as
  if the values fit.
- FeatureExtractor.Variance: only the direction "equal times give variance 0" is stated; the
  converse (variance 0 means equal times) is not stated, because it rests on nonlinear facts
  about squares of reals that the model does not prove.
- App.Predict: the score is the classifier's own answer. `round(p, 4)` and the float
  conversion are part of that given function.
- App.Score: the timestamp is a given string. `strftime` on the clock is not modelled.
- Tracking.RunReport: stated only for controls whose name no other control shares. Controls
  sharing a name write into one entry in turns, which the model does compute but no contract
  summarises.
- Tracking.RunDurations: states non-negativity only, assuming a clock that never goes back.
  Exact sums of focus intervals are not stated.
