# Plant-disease diagnosis actions, modelled in Dafny

This project models the server actions of the plant-disease dashboard
(`src/app/actions.ts`). They do three things:

- **Detect and save** (`performDiseaseDetectionAndSave`). It calls the external
  detection flow at most three times. It retries only when the flow throws an
  `Error` whose message contains `503 Service Unavailable`, waiting 1000 ms
  times the attempt number before each retry. Every other failure is turned
  into a fixed user-facing message, checked in a fixed order. On success it puts
  a new diagnosis record at the head of the in-memory history.
- **Read the history** (`getDiagnosisHistory`). It returns a copy of the
  history, newest first.
- **Summarize** (`getAnalyticsSummary`). It counts the scans, healthy scans
  and diseased scans, and counts every diagnosis entry under its disease name.
  It then sorts the counters by descending count and keeps the first three.

Files:

- `types.dfy` (module `Types`): the record shapes. `Diagnosis` has a disease
  name and a confidence. `DetectOutput` has an optional diagnosis list.
  `DiagnosisRecord` and `AnalyticsSummary` follow `src/types/index.ts`.
- `strings.dfy` (module `Strings`): `Contains`, the case-sensitive substring
  test of `String.prototype.includes`.
- `detection.dfy` (module `Detection`): the retry policy as a function of an
  oracle. `flow(k)` is what the k-th call of the flow does: it returns an
  output, throws an `Error` with a message, or throws a value that is not an
  `Error`. `Detect(flow)` is the run: its result, the number of calls and the
  waits. The failure kinds carry the source's exact messages.
- `analytics.dfy` (module `Analytics`): the counting and the top-three
  pipeline as functions, with the lemmas about the summary.
- `actions.dfy` (module `Actions`): class `HistoryStore`. Its `records` field
  is the module-level history array. Detect-and-save is a method with the
  source's `while` loop, proved equal to `Detect`. The summary is a method
  with the source's two nested loops, proved equal to `Summarize`.
  `RunDetections` makes a series of detect-and-save calls and ties the
  history read afterwards to `SaveAll`.
  `GetDiagnosisHistory` is the store's sequence, which is a value; callers
  cannot change the store through it, and it reads the store without writing
  it.

Only retry backoff waits of 1000 and 2000 ms happen. A third 503 failure
throws the busy message at once, so there is never a backoff wait of 3000 ms.

A thrown `Error` is modelled as `Fail(kind)`, and `Message(kind)` is its
message text. The fallback throw after the loop (line 65) is the kind
`GaveUp`. `DetectSpec` proves that `Detect` never produces it. In the method,
the place after the loop is marked unreachable by an `assert false`.

## Model

| member | source | states |
|---|---|---|
| `Strings.ContainsIff` | src/app/actions.ts:44-57 | The substring test holds exactly when the marker occurs at some position of the message. |
| `Detection.MessagesDistinct` | src/app/actions.ts:49-65 | Each failure kind is thrown with its own message. The kind, and the wrapped cause of a generic failure, can be read back from the message. |
| `Detection.AttemptShape` | src/app/actions.ts:19-63 | Entered after k transient failures, the loop makes between k+1 and 3 calls. Every call but the last is a 503 failure. The last is not a 503 failure unless it is the third. The waits are 1000, 2000, ... ms, one per retry. The result is the last call's output or its classified failure. |
| `Detection.DetectSpec` | src/app/actions.ts:8-65 | One detection calls the flow 1 to 3 times. It waits 1000*k ms before call k+1. Only 503 failures are retried. The result is the last call's output, returned unchanged, or its classified failure. The fallback throw after the loop is never reached. |
| `Detection.FirstCallSucceeds` | src/app/actions.ts:21-39 | A flow that succeeds at once gives its output after one call and no wait. |
| `Detection.BusyTwiceThenSuccess` | src/app/actions.ts:44-47 | Two 503 failures and then a success give the success after three calls and the waits 1000 and 2000 ms. |
| `Detection.AlwaysBusy` | src/app/actions.ts:44-50 | Three 503 failures in a row give the "currently busy" failure after three calls and exactly two waits, 1000 and 2000 ms. |
| `Detection.OtherFailureIsFinal` | src/app/actions.ts:53-62 | A failure without the 503 marker ends the detection on its first occurrence: one call, no wait, its classified failure. |
| `Detection.SafetyRejectedAtOnce` | src/app/actions.ts:54-55 | An error whose message contains "SAFETY" but not the 503 marker gives the content-safety failure after one call. |
| `Detection.BusyBeforeSafety` | src/app/actions.ts:44-55 | The 503 test comes first: a message with both "503 Service Unavailable" and "SAFETY" is retried after a 1000 ms wait. |
| `Analytics.Bump` | src/app/actions.ts:94 | Bumping a name raises its counter by one, from 0 when it was unset, and leaves every other counter alone. The counters stay well formed: each key listed once, listed exactly when set, every value at least 1. |
| `Analytics.TallyDiagnoses` | src/app/actions.ts:93-95 | Counting a diagnosis list keeps the counters well formed: each key listed once, listed exactly when set, every value at least 1. |
| `Analytics.Tally` | src/app/actions.ts:89-97 | The counters after walking the history are well formed. |
| `Analytics.Insert` | src/app/actions.ts:100 | Inserting adds exactly the inserted issue: the result is the old list plus that issue, as a multiset. |
| `Analytics.InsertSorted` | src/app/actions.ts:100 | Inserting into a list sorted by descending count keeps it sorted. |
| `Analytics.SortByCount` | src/app/actions.ts:99-100 | The sorted entries are a permutation of the entries, in non-increasing order of count. |
| `Analytics.CountHealthyIsSize` | src/app/actions.ts:86-92 | The healthy count is the number of records whose diagnosis list is absent or empty. The total minus it is the number of the other records. |
| `Analytics.ScanCounts` | src/app/actions.ts:85-108 | In the summary, `totalScans` is the history length. `healthyScans` counts the healthy records and `diseasedScans` the others. Healthy plus diseased is the total, and 0 <= healthy <= total. |
| `Analytics.TallyDiagnosesCount` | src/app/actions.ts:93-95 | Counting a list adds to each name's counter the number of entries with that name. |
| `Analytics.TallyCount` | src/app/actions.ts:89-97 | Each name's counter equals the number of entries with that name over all records. A name repeated within one record counts each time. |
| `Analytics.CounterExistsIff` | src/app/actions.ts:89-97 | A name has a counter exactly when some record lists it. |
| `Analytics.TopIssuesShape` | src/app/actions.ts:99-102 | The top issues number at most three, are sorted by non-increasing count and name no disease twice. |
| `Analytics.TopIssuesCounts` | src/app/actions.ts:99-102 | Every top issue is a counter's key paired with that counter's value. |
| `Analytics.TopIssuesMaximal` | src/app/actions.ts:99-101 | A name that has a counter but is not among the top issues comes after three listed names, and its count is at most the third one's. |
| `Analytics.CommonIssues` | src/app/actions.ts:89-102 | `commonIssues` has at most 3 entries, sorted non-increasing by count, with no name twice. Each count is the number of entries of that name in the history. Any other name that occurs was seen no more often than the third listed one. |
| `Analytics.DiseasedIffSomeName` | src/app/actions.ts:89-97 | Some scan is diseased exactly when some disease name occurs in the history. |
| `Analytics.CommonIssuesEmptyIff` | src/app/actions.ts:89-108 | `commonIssues` is empty exactly when `diseasedScans` is 0. |
| `Analytics.OneHealthyOneBlight` | src/app/actions.ts:85-108 | One healthy scan and one scan finding "Blight" give totals 2, 1, 1 and the single issue Blight with count 1. |
| `Actions.NewRecord` | src/app/actions.ts:25-31 | The saved record carries the flow result's diagnoses, the image preview URL as `photoDataUri`, and the given id and timestamp. |
| `Actions.SaveAllNewestFirst` | src/app/actions.ts:69-77 | After n successful saves, the history lists the saved records in reverse order of saving, followed by the earlier history. |
| `Actions.HistoryStore.constructor` | src/app/actions.ts:14 | The history starts empty. |
| `Actions.HistoryStore.PerformDiseaseDetectionAndSave` | src/app/actions.ts:17-66 | The result, the number of calls and the waits are those of `Detect(flow)`. On success exactly one record is prepended: the new history is the new record followed by the old one. On every failure the history is unchanged. |
| `Actions.HistoryStore.GetDiagnosisHistory` | src/app/actions.ts:69-78 | The history read returns a value equal to the store, newest first. It only reads the store. |
| `Actions.HistoryStore.RunDetections` | src/app/actions.ts:17-78 | A series of detect-and-save calls saves exactly the records of the successful detections, in call order. The history read afterwards is `SaveAll` of the earlier history and those records, so by `SaveAllNewestFirst` it lists them in reverse order of saving, followed by the earlier history. |
| `Actions.HistoryStore.GetAnalyticsSummary` | src/app/actions.ts:80-115 | The summary is `Summarize` of the current history. The method writes nothing, so two calls with no save in between give the same summary. |

## Left out

- The detection flow itself (`@/ai/flows/detect-disease`) is a remote call and is not part of this model. It is the oracle `flow`, and its input parameter is left out because the oracle already stands for the flow applied to it.
- Time is not modelled. The backoff waits are returned as a list of durations instead of being slept. The cosmetic 700 ms pause after a first-attempt success (lines 36-38) and the 500 ms and 300 ms read delays (lines 75, 111) are left out because they change no state and no result.
- The record id (`Date.now`, `Math.random`) and the ISO timestamp (`new Date`) are parameters of the save, because they depend on the clock and on randomness.
- Only the `diagnoses` field of the flow's output is modelled. The record's spread copies any other fields of that output, and their shape is not part of this model. The optional `userId` is never set by the actions and is left out.
- The confidence is carried but never constrained. The actions never inspect it, and nothing in them bounds it to [0, 1].
- Logging (`console.log`, `console.error`) is left out because it has no effect on results.
- The `JSON.parse(JSON.stringify(...))` copy is modelled as returning the history value itself. Sequences are values, so the copy cannot alias the store.
- `performDiseaseDetection`, the variant without saving, is imported by the upload form but is not defined in `src/app/actions.ts`; it is not part of this model.
- Concurrent calls of the actions against the shared history array are not modelled. Each method runs to completion on its own.
- Analytics.Bump: the counters are modelled as a dictionary with no inherited keys. The source's `diseaseCounts` is a plain `{}` (lines 87, 94), which inherits the properties of `Object.prototype`. The model assumes no disease name is one of those property names (`__proto__`, `constructor`, `toString`, `hasOwnProperty`, ...). For `__proto__`, the source's assignment goes through the prototype setter, which ignores the assigned value because it is a string (`"[object Object]1"`), not an object, so no key is added and the name never reaches `commonIssues`. For a name such as `constructor`, the source reads the inherited function, which is truthy, and stores the text of that function followed by "1" as the count. For such names `Tally`, `CommonIssues` and `CommonIssuesEmptyIff` do not describe the source.
- Analytics.CommonIssues: the order of issues with equal counts is not stated. The model keeps keys in insertion order and sorts stably, which matches `Object.entries` only when no disease name looks like an array index. JavaScript lists such integer-like keys first, in numeric order.
