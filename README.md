# File-upload chat UI: a verified model of the root component's handlers

The root component of `file-upload-ui` keeps five pieces of state: the uploaded file's record
(`fileMeta`), an `uploading` flag, the chat transcript (`messages`), the text of the input box
(`input`) and a `loadingAnswer` flag. Its event handlers form a small sequential state machine:

- `pushMessage` appends an entry to the transcript, and `clearChat` empties it.
- `handleUpload` uploads the selected file, either to a mock that answers after a delay or to a
  configured endpoint. It records the returned key and URL and reports the result in the chat.
- `askQuestion` answers a question in one of two ways. In mock mode it uses a fixed keyword
  classifier. In live mode it queries an endpoint with the uploaded file's key.
- `onSubmit` trims the input box and asks the question that remains.

The model has four modules:

- `Wrappers`: `Option`, standing for `null`/`undefined`. Its `GetOr` is the `??` operator.
- `JsStrings`: the string built-ins the handlers use. These are `trim`, `toLowerCase` on ASCII
  letters and `includes`, each proved against a reference definition. For example, `includes`
  is proved against "occurs at some position".
- `Replies`: the messages and responses as datatypes, plus the pure decisions. These are the mock
  keyword classifier, the key/URL fallback after an upload, the reply to a live query, the error
  texts and the reading of the configuration switches.
- `AppState`: the component as a class `App`. It has one field per piece of state, the
  configuration as constants and one method per handler. Each method runs to completion in one
  step. The result of a network call is a parameter of the method. The method returns the
  request it would have sent, or `None` when it sends nothing.

## Model

| member | source | states |
|---|---|---|
| `AppState.App.constructor` | file-upload-ui/src/App.js:25-29 | The initial state: no file record, both flags false, an empty transcript and an empty input box. Configuration is fixed at construction. |
| `AppState.App.FromEnvironment` | file-upload-ui/src/App.js:7-9 | The app as its build environment configures it. Each endpoint is its variable or the localhost default, and neither endpoint is ever empty. Mock mode follows the mock switch. With every variable unset, the app starts in mock mode against the two localhost endpoints, with the initial state of the other constructor. |
| `AppState.App.PushMessage` | file-upload-ui/src/App.js:32-34 | The transcript grows by exactly one entry, `{who, text}`, at the end. Every earlier entry keeps its position. |
| `AppState.App.ClearChat` | file-upload-ui/src/App.js:107-109 | The transcript is empty afterwards, and nothing else changes. Clearing an empty transcript changes nothing, so clearing twice equals clearing once. |
| `AppState.App.SetInput` | file-upload-ui/src/App.js:135 | The input box holds the typed text. |
| `AppState.App.HandleUpload` | file-upload-ui/src/App.js:36-63 | With no file selected, nothing changes and nothing is sent. Otherwise `uploading` ends false and exactly one bot message is appended. In mock mode that message is the "(mock)" notice, and the record is `mock-<stamp>` with the object URL. In live mode the file is posted to the upload endpoint. On success the record comes from the response and the notice is appended. On a non-2xx status or an exception the record is null and an "Upload error: " message is appended. |
| `AppState.App.AskQuestion` | file-upload-ui/src/App.js:65-98 | See `Asked`. An empty question changes nothing. In live mode without a file, only "Please upload a file first." is appended, and nothing else changes or is sent. Otherwise the question is appended as a user message, followed by exactly one bot reply, and `loadingAnswer` ends false with `input` "". In mock mode the reply is `MockAnswer` and nothing is sent. In live mode `{question, fileKey}` goes to the query endpoint and the reply is `LiveReply`. The file record and `uploading` never change. |
| `AppState.App.OnSubmit` | file-upload-ui/src/App.js:100-105 | Input that trims to "" changes nothing and sends nothing. Otherwise the state and the request are exactly those of asking the trimmed input. |
| `JsStrings.TrimStart` | file-upload-ui/src/App.js:102 | The result is a suffix of the input. Everything cut off is white space, and the result does not start with white space. |
| `JsStrings.TrimEnd` | file-upload-ui/src/App.js:102 | The result is a prefix of the input. Everything cut off is white space, and the result does not end with white space. |
| `JsStrings.Trim` | file-upload-ui/src/App.js:102-103 | The trimmed text is a slice of the input, and everything before and after it is white space, so only leading and trailing white space is removed. It is empty exactly when the input is all white space. Otherwise it neither starts nor ends with white space. |
| `JsStrings.LeadingWhite` | file-upload-ui/src/App.js:102 | Counts the white space at the front of the input. Everything counted is white space, and the next character, if any, is not. |
| `JsStrings.ContentEnd` | file-upload-ui/src/App.js:102 | Finds where the white space at the back of the input begins. Everything from there on is white space, and the character before it, if any, is not. |
| `JsStrings.CutBothEnds` | file-upload-ui/src/App.js:102 | Cutting the leading and then the trailing white space leaves a slice of the input with only white space before and after it. |
| `JsStrings.CutToNothing` | file-upload-ui/src/App.js:102-103 | After both cuts nothing is left exactly when the input is all white space. This is the case `onSubmit` drops. |
| `JsStrings.TrimIdempotent` | file-upload-ui/src/App.js:102 | Trimming twice equals trimming once. |
| `JsStrings.LowerChar` | file-upload-ui/src/App.js:80 | An ASCII capital becomes the small letter at the same place in the alphabet. Every other character is unchanged. The result is never an ASCII capital. |
| `JsStrings.Lower` | file-upload-ui/src/App.js:80 | Lower-casing keeps the length and maps each character in place. |
| `JsStrings.LowerKeepsLowercase` | file-upload-ui/src/App.js:9 | A string with no capitals is its own lower-case form. |
| `JsStrings.LowerIdempotent` | file-upload-ui/src/App.js:80 | Lower-casing twice equals lower-casing once. |
| `JsStrings.IncludesIffOccurs` | file-upload-ui/src/App.js:81-83 | The left-to-right search `includes` succeeds exactly when the keyword occurs at some position. Both directions are proved. |
| `JsStrings.OccursBetween` | file-upload-ui/src/App.js:84 | Text placed verbatim inside a template occurs in the result. |
| `Replies.EchoReply` | file-upload-ui/src/App.js:84 | The fallback mock reply quotes the original question verbatim, not its lower-cased form. |
| `Replies.MockAnswer` | file-upload-ui/src/App.js:80-84 | The classifier reads the lower-cased question. A mention of "name" gives the name fact, and it beats "date". "date" gives the date fact, and it beats "total"/"amount"/"price". Any of those three gives the amount fact. A question with none of the keywords gets the echo reply. |
| `Replies.CannedAnswerIgnoresCase` | file-upload-ui/src/App.js:80-83 | Two questions that differ only in letter case get the same answer, except that each echo reply quotes its own question. |
| `Replies.UploadedMeta` | file-upload-ui/src/App.js:54 | The stored key is `key` if present, else `filename` if present, else "filekey". The stored URL is `url` or null. |
| `Replies.Explain` | file-upload-ui/src/App.js:89-94 | For a failed request, a non-2xx status gives the thrown error's fixed message. An exception gives its non-empty message, and otherwise the exception as a string. |
| `Replies.LiveReply` | file-upload-ui/src/App.js:89-94 | A successful response's reply is `answer` if present, otherwise the serialized response. A non-2xx status gives "Error: Query failed". Any exception gives a reply starting with "Error: ". |
| `Replies.UploadErrorReply` | file-upload-ui/src/App.js:52-58 | A failed upload's message starts with "Upload error: ". For a non-2xx status it is "Upload error: Upload failed". |
| `Replies.UploadedNotice` | file-upload-ui/src/App.js:47-55 | The success notice starts with `File "<name>" uploaded` and names the file verbatim. It ends in " (mock)." exactly for the mock upload. The live notice is exactly `File "<name>" uploaded.`. |
| `Replies.UseMockFrom` | file-upload-ui/src/App.js:9 | Mock mode is on when the variable is unset or empty. Otherwise it is on exactly when the variable lower-cases to "true", so "TRUE" turns it on and "false" turns it off. |
| `Replies.ConfiguredUrl` | file-upload-ui/src/App.js:7-8 | A non-empty environment value wins. An unset or empty one gives the built-in default. The setting is always one of the two, and it is empty only when both are. |

## Left out

- Rendering is not modelled. This covers the `ChatMessage` component, the JSX tree, the status
  line and `file-upload-ui/src/ChatWidget.js`. They lay out state and hold no state logic. The
  JSX's references to the undefined `isOpen`, `setIsOpen` and `onSubmitChat` belong to that layer.
- Network and browser APIs are abstract. `fetch`, `FormData`, `resp.json()`, `JSON.stringify` and
  `URL.createObjectURL` become the `Outcome` parameter, the `serialized` field and the `objectUrl`
  parameter. A parse failure in `resp.json()` is one of the `Thrown` outcomes. So is a 2xx
  response whose JSON body is `null`: reading `json.key` or `json.answer` from it throws a
  `TypeError`, which the handler catches like any other exception.
- `Date.now()` in the mock key is the `stamp` parameter, an arbitrary string.
- The 700 ms `setTimeout` delays are pure latency.
- Concurrency and React's batching of state updates are not modelled. Each handler runs to
  completion before the next starts, so overlapping submissions and stale closures are out of scope.
- The mock upload path never fails in the model, because `URL.createObjectURL` throwing is not
  modelled.
- Resetting the DOM file input after an upload is a DOM side effect and is not modelled.
- `JsStrings.Lower`: it maps only ASCII capitals, not Unicode's full case mapping. Full case
  mapping does not change which of the five keywords, or "true", a string contains. The only
  characters outside ASCII whose lower-case form contains an ASCII letter are U+0130, which gives
  "i" followed by a combining dot, and U+212A, which gives "k".
- `Replies.UploadedMeta`: JSON field values are modelled as strings. A non-string `key`,
  `filename`, `url` or `answer` in a response is outside the model.
