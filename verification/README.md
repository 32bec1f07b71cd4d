# deadpandr front end: a Dafny model of its decision logic

The deadpandr page collects the settings for a dark-comedy generation request,
sends them to a generation service, shows the jokes that come back and exports
them as a text or PDF file through a second service call. Most of `src/App.js`
is markup. This project models the five pieces of it that make decisions:

- **Madness label** (`madness.dfy`, module `Madness`). The slider label is found
  by a nearest-key lookup over a ten-entry table. The lookup is a left-biased
  `reduce` with a strict `<`, so on a tie the key visited first wins. Values
  are integer hundredths, so 0.55 is 55. The visit order is the order in which
  `Object.keys` lists the object literal's keys. The key `1.0` becomes the
  property name "1", which is an array index, so it is listed first. The other
  keys follow in insertion order.
- **Request payload** (`payload.dfy`, module `Payload`). This is the JSON body
  of a generate request, with its fields in order. `transition_type` is the
  stored transition only for "Routines" and null otherwise.
- **Generate handler** (`session.dfy`, module `Session`). The session is the
  triple (jokes, status, loading). The handler is a begin step, then a finish
  step for an abstract outcome: `Thrown`, `NotOk(detail)` or `Ok(jokes)`.
- **Save handler** (`export.dfy`, module `Export`). It has a local guard for an
  empty list. Otherwise it sends one export request, and on success it offers a
  download named `deadpandr_jokes.<format>`. Each outcome sets its own status
  line, and the joke list is never changed.
- **Status line** (`banner.dfy`, module `StatusBanner`). The line is styled as
  an error when it contains "Error", "Failed" or "No jokes". This module links
  that test to every fixed message the two handlers set.

The string primitives are in `strings.dfy` (module `Strings`):
`String.prototype.includes`, ASCII `toUpperCase`, and the extension of a file
name. `wrappers.dfy` holds the `Option` type.

The network, the browser's file download and the DOM are not modelled as code.
Each request is a parameter: the handler receives the outcome that the request
would have produced. The request that would be sent is returned as a value.

The label lookup is modelled in exact arithmetic. On the slider's own grid
(0.1, 0.2, ..., 1.0) the page's double arithmetic finds the same key. Exactly
half-way between two keys the two can differ; see "## Left out".

## Model

| member | source | states |
|---|---|---|
| `Madness.KeysOfKind` | src/App.js:43 | The entries kept are exactly the entries whose key is (or is not) an array-index name, and nothing is added |
| `Madness.ObjectKeysOrderPermutes` | src/App.js:43 | Listing array-index keys first and then the others is a permutation of the literal's entries |
| `Madness.LastIndexKeyMovesFirst` | src/App.js:18-29 | When only the last key is an array index, `Object.keys` moves it to the front and keeps the rest in insertion order |
| `Madness.MadnessVisitOrder` | src/App.js:18-29 | The reduction visits 1.0 first, then 0.1 through 0.9; this is the `Object.keys` order of the literal |
| `Madness.ReduceNearest` | src/App.js:43-45 | The entry the `reduce` keeps is at minimal distance from the value, and strictly nearer than every entry visited before it |
| `Madness.NearestIndex` | src/App.js:43-45 | Over the whole table, the kept entry is the first nearest one in visit order |
| `Madness.FirstNearestUnique` | src/App.js:43-45 | At most one entry is the first nearest one, so the tie-break fully decides the result |
| `Madness.GetMadnessLabel` | src/App.js:42-47 | The label returned is always one of the table's labels, and it is the label of the first nearest key in visit order |
| `Madness.MadnessNearestPosition` | src/App.js:211-217 | Every slider position 0.1 to 1.0 shows its own label. Any value nearer one key than its neighbours shows that key's label, and values beyond either end show the end's label |
| `Madness.MadnessMidpoint` | src/App.js:43-45 | In exact hundredths arithmetic, half-way between two keys the key visited first wins: the lower key for 0.15 to 0.85, but 1.0 for 0.95, because 1.0 is visited before 0.9 |
| `Madness.MadnessExamples` | src/App.js:42-47 | In exact hundredths arithmetic, 0.55 gives "moderately creative", 0.83 gives "mild schizophrenia" and 0.95 gives "maximum chaos" |
| `Payload.BuildPayload` | src/App.js:58-66 | The body has the seven wire fields in order. Each field has the type the service expects: `transition_type` is text or null, and `num_jokes` is an integer |
| `Payload.TransitionTypeRule` | src/App.js:62 | `transition_type` is null if and only if the output type is not "Routines"; for routines it is the stored transition, whatever it is |
| `Payload.PayloadCopiesSettings` | src/App.js:58-66 | topic, tone, output type, madness, darkness and joke count are copied unchanged; the output type goes under `output_type` and the joke count under `num_jokes` |
| `Payload.PayloadDeterminesRequest` | src/App.js:58-66 | Two settings give the same body if and only if they agree on every field, apart from the transition of a non-routine request |
| `Payload.DefaultConfigRequest` | src/App.js:7-13 | The initial settings are ones the controls allow, and they ask for no transition |
| `StatusBanner.InitialSessionIsIdle` | src/App.js:14-16 | A fresh page has no jokes, no status line and nothing pending, so it is idle |
| `Session.BeginGenerate` | src/App.js:50-52 | Starting a generate sets loading, clears the status line and empties the joke list |
| `Session.FinishGenerate` | src/App.js:69-80 | Every completion branch clears loading, and only a successful response changes the joke list |
| `Session.HandleGenerate` | src/App.js:49-82 | A generate sends the settings' payload and ends not loading. On success the jokes are exactly the returned list, in order and unfiltered, with the success message. A failed response gives the detail or the fallback message, and a thrown request gives the connection message; both leave the list empty |
| `Session.GenerateForgetsPriorSession` | src/App.js:49-82 | What a generate leaves does not depend on the session it started from |
| `Session.InterleavedGenerates` | src/App.js:49-82 | With two generates overlapping, the first to finish clears loading while the other is pending; if it succeeded and the other then throws, the page shows the first one's jokes under the connection failure message |
| `Session.RetryAfterConnectFailure` | src/App.js:73-78 | After a connection failure the list is empty and the failure message is shown; the next successful generate replaces both with the returned jokes and the success message |
| `Export.DownloadName` | src/App.js:102 | The download name is `deadpandr_jokes.` followed by the format, for every format; its extension is the format whenever the format has no dot |
| `Export.HandleSave` | src/App.js:84-114 | A save never changes the jokes or the loading flag. It sends a request if and only if there are jokes, and that request carries exactly the jokes and the format. It downloads a file only when there are jokes and the export succeeds, and that file is named `deadpandr_jokes.` followed by the format. With no jokes it shows the "No jokes to save!" message |
| `Export.SaveOutcomes` | src/App.js:97-112 | When there are jokes, a successful export shows "Saved as " and the upper-cased format, and its file extension is the format. A failed response shows "Failed to save file" and a thrown request shows "Error saving file" |
| `Export.SaveButton` | src/App.js:102-107 | For any format, a successful export downloads the base name with that extension and confirms with the upper-cased format (the general form behind `SaveButtons`) |
| `Export.SaveButtons` | src/App.js:268-283 | The TXT and PDF buttons download `deadpandr_jokes.txt` and `deadpandr_jokes.pdf`, and they confirm "Saved as TXT" and "Saved as PDF" |
| `Strings.Includes` | src/App.js:315 | `includes` is true exactly when the substring occurs at some position |
| `Strings.UpperCaseIsUpper` | src/App.js:107 | An upper-cased string has no lower-case ASCII letter, and upper-casing it again changes nothing |
| `Strings.Extension` | src/App.js:102 | The extension is a dot-free suffix of the name, and it is preceded by a dot unless it is the whole name |
| `Strings.ExtensionOfDotted` | src/App.js:102 | Base name, a dot and a dot-free format give back the format as the extension |
| `StatusBanner.FailureMessagesShowAsErrors` | src/App.js:315 | All five fixed failure messages of the two handlers are styled as errors |
| `StatusBanner.GenerateSuccessShowsAsSuccess` | src/App.js:315 | "Jokes generated successfully!" is styled as a success |
| `StatusBanner.SavedMessageShowsAsSuccess` | src/App.js:315 | "Saved as " followed by any upper-cased format is styled as a success |
| `StatusBanner.GeneratePhases` | src/App.js:49-82 | A generate is loading while pending. After a success the line is green. After a thrown request or an empty detail it is red. For a service detail, the line is red exactly when the detail itself contains a marker, and green otherwise |
| `StatusBanner.SaveBanners` | src/App.js:84-114 | The save status line is green exactly when there were jokes and the export succeeded, and red otherwise |

## Left out

- Markup, CSS classes and icons are not modelled (src/App.js:116-327), apart from the status-line test at line 315. This includes disabling the generate button while loading and the save buttons while the list is empty.
- `fetch`, `response.json()`, `response.blob()`, object URLs and the anchor element are browser APIs. Each request is reduced to its outcome value, and the export's file contents are not represented.
- Overlapping generate calls are concurrency, and their scheduling is not modelled. The two steps of a call can be interleaved by hand, as `Session.InterleavedGenerates` does: a later failed response then keeps an earlier successful response's jokes under its own failure message, and the first response to finish clears `loading`.
- `Madness.GetMadnessLabel`: uses exact integer arithmetic in hundredths instead of IEEE doubles. On the slider's grid of 0.1 steps the two agree. Exactly half-way between two keys they can differ.
- `Madness.MadnessMidpoint`: holds in exact arithmetic only. With doubles, the page picks a different key at 0.55 (0.6, "very creative"), 0.65 (0.7, "acid trip") and 0.95 (0.9, "full schizophrenia"). At 0.95 the distance alone decides, so the visit order does not. This was worked out from the double representations and not executed. The slider cannot produce these values.
- `Madness.MadnessExamples`: the 0.55 and 0.95 results hold in exact arithmetic only. With doubles the page would show "very creative" and "full schizophrenia", for the same reason (not executed).
- `Object.keys` order is modelled with array-index keys in insertion order, not sorted ascending. The table has exactly one such key, so this makes no difference here.
- `Strings.ToUpperCase`: maps only the ASCII letters. JavaScript's full Unicode case mapping, including changes of length, is not modelled.
- A service `detail` is modelled as text or absent, and a successful body always carries a list of strings. A non-string `detail`, or a success body without `jokes`, would reach the page's rendering and is not modelled.
- `parseInt` and `parseFloat` on the slider input are not modelled (src/App.js:217, 244). Settings are given as values directly.
- JSON numbers are values `scaled / 10^places`, not their printed text. `API_URL` and the request headers are constants outside the model.
