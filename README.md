# Freshers party QR pass system: client core in Dafny

The Freshers party system issues each registered student a ticket page with a QR symbol. Gate
and food-counter volunteers scan that symbol with a phone camera. The browser client sends every
request to one spreadsheet-backed web app endpoint. This project models five parts of that client
and proves properties of them:

- **the pass codec**: the template on the pass page that writes the QR text, and
  `parseQRContent`, which reads it back (`PassCodec`). The JavaScript pieces it relies on are
  modelled in `Text` (`split`, `trim`, `includes`, `startsWith`, `toLowerCase`) and `Js`
  (`d.X || ''`, truthiness).
- **the transport**: `apiGet`, `apiPost`, `convertPostToGet` and `testApiConnection`, with their
  timeout, linear-backoff retry, error classification and POST-to-GET fallback (`Transport`). Each
  `fetch` is replaced by the outcome a `Network` gives for the n-th fetch, and each sleep by the
  delay it would wait. A call's result is a `Trace`: its outcome, the fetches it issued and the
  delays it slept.
- **the validators**: `isValidEmail`, `isValidRegNo` and the rule order of `validateField`
  (`Validation`).
- **the pass page**: `regNo` from the address, the `getPass` request, the ticket fields, the
  status line, the food icon and the QR text (`PassPage`).
- **the scanner screens**: what happens after the camera stops on a decoded text (the guard, the
  `verifyEntry`/`verifyFood` request, the verdict), in `Scanning`. The one-shot camera life cycle
  is a class whose methods react to the scanner library's callbacks, in `CameraSession`.

## Model

| member | source | states |
|---|---|---|
| Js.Field | freshers_qr_system/frontend/js/qr.js:18-22 | `d.X \|\| ''` reads a member's string, or `''` when the member is missing |
| Text.Split | freshers_qr_system/frontend/js/utils.js:30-32 | `split` always yields at least one piece, and no piece contains the separator |
| Text.SplitJoin | freshers_qr_system/frontend/js/utils.js:30 | splitting the `\|`-join of separator-free pieces gives those pieces back |
| Text.JoinSplit | freshers_qr_system/frontend/js/utils.js:30 | joining the pieces of a split restores the original text |
| Text.TrimStart | freshers_qr_system/frontend/js/utils.js:34 | removes exactly the leading ECMAScript whitespace: the result is a suffix and does not start with whitespace |
| Text.TrimEnd | freshers_qr_system/frontend/js/utils.js:34 | removes exactly the trailing whitespace: the result is a prefix and does not end with whitespace |
| Text.LowerCase | freshers_qr_system/frontend/js/qr.js:27 | same length, each character folded to lower case |
| Text.Decimal | freshers_qr_system/frontend/js/utils.js:149 | the status number is printed as a non-empty string of decimal digits whose value, most significant digit first, is the number, with no leading zero |
| PassCodec.ParseQRContent | freshers_qr_system/frontend/js/utils.js:26-42 | the forEach loop over the `\|`-segments produces exactly the decoded mapping `Decode(text)` |
| PassCodec.FoldKeys | freshers_qr_system/frontend/js/utils.js:31-36 | a key is present exactly when some segment contributes it |
| PassCodec.FoldLastWins | freshers_qr_system/frontend/js/utils.js:31-36 | a repeated key holds the value of its last contributing segment |
| PassCodec.DecodeMeaning | freshers_qr_system/frontend/js/utils.js:26-42 | for any text, a key is present exactly when some segment contributes it, with the value of the last such segment |
| PassCodec.DecodeAppend | freshers_qr_system/frontend/js/utils.js:31-36 | one more segment overwrites only the member it contributes; a segment that contributes nothing changes nothing |
| PassCodec.FoldEntriesSnoc | freshers_qr_system/frontend/js/utils.js:31-36 | segments are installed one at a time, left to right |
| PassCodec.NoColonNoEntry | freshers_qr_system/frontend/js/utils.js:32-33 | a segment without `:` adds nothing |
| PassCodec.EmptyValueNoEntry | freshers_qr_system/frontend/js/utils.js:33 | `key:` with an empty value adds nothing |
| PassCodec.SecondColonDiscards | freshers_qr_system/frontend/js/utils.js:32 | only the first two `:`-pieces are used; text after a second `:` is lost |
| PassCodec.BlankKeyStoredAsEmpty | freshers_qr_system/frontend/js/utils.js:33-34 | the emptiness test runs before trimming, so a whitespace-only key is stored under `""` |
| PassCodec.KeyedSegment | freshers_qr_system/frontend/js/utils.js:32-34 | a segment under a fixed safe key offers that key with the first `:`-piece of its value, trimmed; an empty first piece offers nothing |
| PassCodec.QrTextSegments | freshers_qr_system/frontend/js/qr.js:30 | the QR text always splits into the six segments APP, REG, NAME, BRANCH, SEC, FOOD, in this order, when no member contains `\|` (a missing member is written as an empty value) |
| PassCodec.SafeSegmentEntry | freshers_qr_system/frontend/js/qr.js:30 | a template segment with a codec-safe value decodes to exactly its key and value |
| PassCodec.SixSafe | freshers_qr_system/frontend/js/utils.js:26-42 | six segments under safe, non-prototype keys decode to their six pairs, later ones overwriting earlier ones |
| PassCodec.SafeQrSegments | freshers_qr_system/frontend/js/qr.js:30 | the segments of a codec-safe pass, written with its members and the APP tag |
| PassCodec.RoundTrip | freshers_qr_system/frontend/js/qr.js:30 | decoding the QR text of a pass whose members are codec-safe yields exactly APP, REG, NAME, BRANCH, SEC and FOOD with the pass's values |
| PassCodec.SixWithEmptySecond | freshers_qr_system/frontend/js/utils.js:33 | a segment written with an empty value leaves its key absent when no other segment uses that key |
| PassCodec.BlankRegDecodes | freshers_qr_system/frontend/js/utils.js:33-34 | `REG:` followed by whitespace only passes the emptiness test, and the trimmed value is stored, so REG decodes as `""` |
| PassCodec.MissingRegNoDropsReg | freshers_qr_system/frontend/js/qr.js:30 | when no member contains `\|`, a pass without a RegNo is written `REG:`, and the decoded mapping has no REG at all |
| Transport.Error | freshers_qr_system/frontend/js/utils.js:149 | `new Error(m)` has name `Error` and message `m` |
| Transport.HttpError | freshers_qr_system/frontend/js/utils.js:148-150 | a response that is not ok throws an `Error` whose message is `HTTP `, the decimal digits spelling the status, `: ` and the status text |
| Transport.AttemptAsWritten | freshers_qr_system/frontend/js/utils.js:145-161 | one attempt in the source's order: a rejection rethrows its reason; a response that is not ok throws the HTTP error, even when it is opaque; an ok opaque response gives the no-cors stand-in reply; otherwise the parsed body is returned, and a body that cannot be parsed throws |
| Transport.Attempt | freshers_qr_system/frontend/js/utils.js:145-161 | one attempt in the corrected order, `opaque` tested before `ok`: a rejection rethrows its reason; an opaque response gives the no-cors stand-in reply; a response that is not ok throws the HTTP error; otherwise the parsed body is returned, and a body that cannot be parsed throws |
| Transport.OpaqueThrowsAsWritten | freshers_qr_system/frontend/js/utils.js:148-156 | as written, a standard opaque response (status 0, not ok) throws `HTTP 0: ` rather than returning the no-cors reply |
| Transport.AttemptOrdersAgree | freshers_qr_system/frontend/js/utils.js:148-156 | the order as written and the corrected order differ exactly on opaque responses that are not ok |
| Transport.PresentParamsMembers | freshers_qr_system/frontend/js/utils.js:126-130 | a pair is in the query exactly when the parameter has that non-null value |
| Transport.PresentParamsAppend | freshers_qr_system/frontend/js/utils.js:126-130 | filtering keeps key order: the query of a concatenation is the concatenation of the queries |
| Transport.AppendParams | freshers_qr_system/frontend/js/utils.js:126-130 | the loop appends exactly the parameters whose value is neither null nor undefined, in key order |
| Transport.GetFailure | freshers_qr_system/frontend/js/utils.js:175-183 | once retries are spent: an abort becomes the timeout message, `TypeError` "Failed to fetch" the network message, a message mentioning CORS the CORS message, and anything else is rethrown unchanged |
| Transport.ApiGet | freshers_qr_system/frontend/js/utils.js:112-185 | in either check order: between 1 and `max(1, retryAttempts - retryCount + 1)` fetches (`Budget`), all the same GET; the k-th delay is `1000 * (retryCount + k + 1)` ms; every attempt but the last threw; a returned reply ends the call unchanged; a final error comes after the full budget and is classified |
| Transport.Get | freshers_qr_system/frontend/js/gate-scan.js:14 | `apiGet(params)` as the scanner screens and the pass page call it, with the shipped configuration and the order as written: one to three fetches, all the same GET, and a returned reply is the one the last fetch gave, read in the order as written |
| Transport.ThreeTimeouts | freshers_qr_system/frontend/js/utils.js:8-13 | with the shipped configuration, in either check order, a server that never answers costs exactly three fetches, 1000 ms and 2000 ms apart, and ends in the timeout message |
| Transport.HttpZeroUnclassified | freshers_qr_system/frontend/js/utils.js:175-183 | the `HTTP 0: ` error an opaque response throws as written is no abort, no fetch failure and does not mention CORS, so apiGet rethrows it unchanged |
| Transport.GetThrowsThrice | freshers_qr_system/frontend/js/utils.js:164-184 | three attempts that throw the same unclassified error cost three GETs, 1000 ms and 2000 ms apart, and end in that error |
| Transport.OpaqueGetAsWritten | freshers_qr_system/frontend/js/utils.js:112-185 | as written, the shipped no-cors configuration facing standard opaque responses makes three GETs, 1000 ms and 2000 ms apart, and throws `HTTP 0: `; in the corrected order one GET returns the stand-in reply |
| Transport.ReplyEndsCall | freshers_qr_system/frontend/js/utils.js:158-161 | a reply ends the call after one fetch, whatever its status, so an application-level refusal is never retried |
| Transport.NotOkIsRetried | freshers_qr_system/frontend/js/utils.js:168-172 | an HTTP error is retried after `1000 * (retryCount + 1)` ms while the budget lasts |
| Transport.ConvertedParams | freshers_qr_system/frontend/js/utils.js:255-267 | the fallback parameters, in the order action, data, transactionId, regNo: `action` always, `data` (as JSON text) when present, `transactionId` and `regNo` when truthy, and nothing else |
| Transport.RegistrationFallbackQuery | freshers_qr_system/frontend/js/utils.js:255-261 | a registration POST falls back to the query `action=register&data=<JSON>` |
| Transport.ConvertPostToGet | freshers_qr_system/frontend/js/utils.js:253-275 | one full apiGet of the converted parameters; any error it throws becomes the all-methods-failed message |
| Transport.ApiPost | freshers_qr_system/frontend/js/utils.js:188-250 | in either check order (no modelled screen calls it): POST attempts on the retry schedule of apiGet; once the retries are spent, an abort becomes the timeout message, "Failed to fetch" hands over to convertPostToGet, and any other error is rethrown unchanged |
| Transport.PostThrowsThrice | freshers_qr_system/frontend/js/utils.js:229-249 | three POST attempts that throw the same error, neither an abort nor a fetch failure, cost three POSTs, 1000 ms and 2000 ms apart, and rethrow that error without the GET fallback |
| Transport.OpaquePostAsWritten | freshers_qr_system/frontend/js/utils.js:188-250 | as written, the shipped configuration facing standard opaque responses sends three POSTs and rethrows `HTTP 0: `, never reaching convertPostToGet; in the corrected order one POST returns the stand-in reply |
| Transport.PostRetryStep | freshers_qr_system/frontend/js/utils.js:233-237 | a retried POST extends the retry's outcome by one attempt and one delay at the front |
| Transport.PostFallbackStep | freshers_qr_system/frontend/js/utils.js:242-246 | after the fallback the POST attempts are exactly those before it, since the fallback only issues GETs |
| Transport.PostFallsBackToGet | freshers_qr_system/frontend/js/utils.js:240-246 | a POST that keeps failing to fetch is tried `retryAttempts + 1` times, then the converted GET runs with a full budget of its own and decides the result |
| Transport.TestApiConnection | freshers_qr_system/frontend/js/utils.js:484-500 | in either check order: success exactly for a `getStats` reply with status ok; otherwise the reply's message, or the thrown error's message |
| Transport.OpaqueConnectionAsWritten | freshers_qr_system/frontend/js/utils.js:484-500 | as written, the connection test against the shipped no-cors configuration reports not connected with `HTTP 0: `; in the corrected order it reports connected with the stand-in reply |
| Transport.ConnectionTimesOut | freshers_qr_system/frontend/js/utils.js:496-499 | in either check order, a server that never answers is reported as not connected, with the timeout message |
| Validation.AlnumRunMeaning | freshers_qr_system/frontend/js/utils.js:324 | `^[a-zA-Z0-9]+$` matches exactly the non-empty strings of ASCII letters and digits |
| Validation.RegNoMeaning | freshers_qr_system/frontend/js/utils.js:323-325 | a registration number is valid exactly when it has at least three characters, all ASCII letters or digits |
| Validation.ValidRegNoIsCodecSafe | freshers_qr_system/frontend/js/utils.js:323-325 | a registration number the form accepts is carried unchanged by the pass text |
| Validation.IndexOf | freshers_qr_system/frontend/js/utils.js:318 | the first position of a character, or none when it does not occur |
| Validation.EmailMeaning | freshers_qr_system/frontend/js/utils.js:317-320 | the one-pass test accepts exactly the language of `^[^\s@]+@[^\s@]+\.[^\s@]+$` |
| Validation.PaddedEmailRejected | freshers_qr_system/frontend/js/utils.js:649 | the email rule sees the raw value, so leading whitespace makes the address invalid |
| Validation.FailedRules | freshers_qr_system/frontend/js/utils.js:642-658 | each of the three rules is listed exactly when its condition holds on the field |
| Validation.ReportedIsLastFailure | freshers_qr_system/frontend/js/utils.js:642-658 | the reported rule is the last failing rule in rule order, and there is one exactly when some rule fails |
| Validation.ValidateField | freshers_qr_system/frontend/js/utils.js:632-672 | valid exactly when no rule fails; otherwise the message of the last failing rule |
| Validation.BlankFailsOnlyRequired | freshers_qr_system/frontend/js/utils.js:643-655 | a blank value fails only the required rule, and only when the field is required |
| Validation.RequiredExcludesOthers | freshers_qr_system/frontend/js/utils.js:643-655 | when the required rule fails no other rule does, so at most two rules fail |
| Validation.LastRuleWins | freshers_qr_system/frontend/js/utils.js:649-657 | an email control named `regNo` with a bad value fails both rules, and the registration-number message is reported |
| PassPage.StatusLine | freshers_qr_system/frontend/js/qr.js:23 | `Status: ` followed by the Status member, or by `-` when it is missing or empty |
| PassPage.FoodIconMeaning | freshers_qr_system/frontend/js/qr.js:27 | the veg icon exactly when the first three characters of Food are v, e, g in any case |
| PassPage.Page | freshers_qr_system/frontend/js/qr.js:1-55 | without a truthy `regNo`, nothing is requested and the page shows the missing-regNo text; otherwise one `getPass` request is made; a refusal shows "Pass not found", a thrown error shows the fetch-failure message, and an ok reply fills the ticket |
| PassPage.TicketOnlyForOkReply | freshers_qr_system/frontend/js/qr.js:10-30 | a ticket, and so a QR text, exists only for an ok reply carrying the pass, and encodes that pass |
| PassPage.TicketDecodes | freshers_qr_system/frontend/js/qr.js:30 | the QR symbol on the ticket of a codec-safe pass decodes back to its six members |
| PassPage.RequestCarriesRegNo | freshers_qr_system/frontend/js/qr.js:10 | the request passes the address parameter on unchanged, as `action=getPass&regNo=<regNo>` |
| Scanning.Verdict | freshers_qr_system/frontend/js/gate-scan.js:14-23 | exactly one of three outcomes: green, with the allowed text, exactly for an ok reply with data; red, with the server's message, exactly for a reply that is not ok; otherwise "Server error", which covers a thrown error and an ok reply without data |
| Scanning.AfterStop | freshers_qr_system/frontend/js/gate-scan.js:6-23 | shows "Scanned: " and the text first; a request is made exactly when the decoded text has a non-empty REG, for exactly that REG; otherwise "Invalid pass format." is shown |
| Scanning.FoodCounterScan | freshers_qr_system/frontend/js/food-scan.js:5-22 | the food counter requests `verifyFood` for exactly the decoded REG, and an ok reply with data shows "Food allowed: " with the Name and the Food in green |
| Scanning.IssuedPassRequestsItsRegNo | freshers_qr_system/frontend/js/gate-scan.js:9-14 | scanning a pass issued for a codec-safe record requests that record's registration number |
| Scanning.PassWithoutRegNoRejected | freshers_qr_system/frontend/js/gate-scan.js:10-13 | when no member contains `\|`, scanning a pass printed without a RegNo shows "Invalid pass format." and makes no request |
| Scanning.BlankRegRejected | freshers_qr_system/frontend/js/food-scan.js:7-11 | a REG made only of whitespace decodes to `""` and is rejected like a missing one |
| Scanning.RefusalShownVerbatim | freshers_qr_system/frontend/js/gate-scan.js:17-18 | the server's refusal message is shown in red, unchanged |
| CameraSession.Scanner.constructor | freshers_qr_system/frontend/js/gate-scan.js:2-3 | a fresh session lists cameras, has shown nothing, started nothing and requested nothing |
| CameraSession.Scanner.CamerasListed | freshers_qr_system/frontend/js/gate-scan.js:31-36 | starts the first camera, or shows "No camera found" for an empty list |
| CameraSession.Scanner.CamerasFailed | freshers_qr_system/frontend/js/gate-scan.js:37-40 | shows the permission message and ends the session |
| CameraSession.Scanner.StartSettled | freshers_qr_system/frontend/js/gate-scan.js:33 | a started camera is running; a failed start ends the session |
| CameraSession.Scanner.FrameDecoded | freshers_qr_system/frontend/js/gate-scan.js:4-6 | a decode while running only asks for `stop()` and remembers the text |
| CameraSession.Scanner.StopSettled | freshers_qr_system/frontend/js/gate-scan.js:6-24 | a successful stop handles the text exactly as `AfterStop` says and stops for good; a failed stop shows and requests nothing |
| CameraSession.RunSession | freshers_qr_system/frontend/js/gate-scan.js:1-41 | whatever order the callbacks arrive in, at most one camera is started and at most one pass is verified |
| CameraSession.ScanScenario | freshers_qr_system/frontend/js/food-scan.js:1-38 | on either screen, listing, starting, decoding and stopping runs the first camera once and leaves the result element showing exactly what `AfterStop` says, with exactly its requests |

## Left out

- DOM writes (element text, `innerHTML`, border colours, the error element of `validateField`,
  `showMsg`) become the values they would write. HTML in a server message is kept as text.
- `fetch`, `AbortController`, `setTimeout` and the promise machinery are not modelled. A timeout
  is a fetch rejected with `AbortError`; each sleep is a recorded delay; the asynchronous
  interleaving of callbacks becomes event order in `CameraSession.RunSession`.
- Request headers, the `cache` option, URL serialisation and percent-encoding are left out. A
  request is its method, base URL, mode, ordered query pairs and body.
- The JSON body of a POST is kept as the `PostData` value. `JSON.stringify` of the form data is a
  parameter of `Transport.ConvertedParams`.
- Replies are objects with string members. Non-string member values, non-object replies and a
  `null` reply are not modelled.
- Parameter objects are ordered pair lists. The reordering `Object.keys` applies to integer-like
  keys is not modelled, since the client only uses named keys.
- `parseQRContent`'s catch branch is left out: it is reachable only for non-string input, and
  the model takes strings.
- `apiJsonp`, `formatDate`, the URL-parameter helpers, `generateQRCode`, the form-setup helpers,
  the dashboard screen and the registration form script are not part of this model.
- Rendering the QR symbol (`QRCode.toCanvas`, its error text and the download link) is not
  part of this model; the page's `qrText` is the text handed to it.
- The camera library (`Html5Qrcode`) is not part of this model, so how it behaves while `stop()` is
  pending is an assumption. The scripts themselves have no guard against a second decode in that
  time (gate-scan.js:4-6, food-scan.js:4-5). If the library kept decoding, a second decode would
  call `stop()` again and verify a second pass. `CameraSession.Scanner.FrameDecoded` assumes that
  decodes after the first are ignored until the camera has stopped. `CameraSession.RunSession`'s
  "at most one pass verified" rests on that assumption. A failed `stop()` is assumed to leave the
  camera running. Any other callback that arrives in the wrong phase is ignored.
- The pass text is not escaped. A member containing `|` injects extra segments: a record with no
  RegNo and the Name `x|REG:y` is written `…|REG:|NAME:x|REG:y|…` and decodes with REG = `y`, so
  the scanners request that number. `PassCodec.MissingRegNoDropsReg` and
  `Scanning.PassWithoutRegNoRejected` hold only for passes whose members contain no `|`.
- A rejected `start()` is not handled by the scripts: the model just ends the session.
- Only the guard's message replaces the "Scanned: …" text at once (gate-scan.js:10-13,
  food-scan.js:7-11). The verdict replaces it when `apiGet` settles (gate-scan.js:14-23), after up
  to three attempts and their backoff delays. The model keeps both texts in order in `shown` and
  does not model the time in between.
- Text.LowerCase: folds ASCII letters only. Full Unicode lower-casing is not modelled. The veg test
  of `PassPage.FoodIconMeaning` is unaffected unless a non-ASCII character lower-cases to a string
  starting with v, e or g.
- `useCorsProxy` changes only the base URL and the mode: both are modelled, the proxy itself is
  not.

## Findings

| source | as written | input that shows it | evidently intended | confidence | as-written member | corrected member |
|---|---|---|---|---|---|---|
| freshers_qr_system/frontend/js/utils.js:148-156 | apiGet tests `!response.ok` before `response.type === 'opaque'` | any response to the no-cors fetch the shipped configuration makes: the Fetch standard gives an opaque response status 0 and `ok` false, so it throws `HTTP 0: ` and is retried | an opaque response returns the stand-in reply `{status:'ok', message:'Request sent (no-cors mode)'}` | high, not executed | Transport.AttemptAsWritten, Transport.OpaqueThrowsAsWritten, Transport.OpaqueGetAsWritten | Transport.Attempt |
| freshers_qr_system/frontend/js/utils.js:213-221 | apiPost has the same order | the same opaque response to a no-cors POST | the same stand-in reply | high, not executed | Transport.AttemptAsWritten, Transport.OpaquePostAsWritten | Transport.Attempt |

`Transport.ApiGet`, `Transport.ApiPost` and `Transport.TestApiConnection` take the check order as a
parameter, so both the code as written and the corrected code are modelled. The scanner screens
and the pass page call apiGet through `Transport.Get`, which uses the order as written, so they
show what the shipped scripts show. With the corrected order the stand-in reply would still carry
no data: the scanner screens would show "Server error" for it, and the pass page the
fetch-failure message.
