# Lead capture handler — a Dafny model

This project models `Chatbot/netlify/functions/lead-capture.js`, a serverless
HTTP handler for a lead form. It answers the CORS preflight and rejects
methods other than POST. It parses the body and checks the seven required
fields. It then appends a nine-column row to a Google Sheets spreadsheet and
e-mails a notification over SMTP, in that order, and turns every thrown error
into a 500 answer.

The spreadsheet service, the SMTP relay, `JSON.parse` and `Number` are
function-typed parameters of the methods, so they are abstract capabilities.
The logic around them is modelled: the configuration guards, the
private-key rewrite, the row and range, the subject and the `secure` flag,
HTML escaping with the `String(v)` conversion in front of it, and the
response shapes. The conversion of large numbers is the one approximation
(see "## Left out"). `LeadCapture.Handle`,
`Sheets.AppendToSheet` and `Email.SendEmail` are methods. Each one returns a
ghost trace of the downstream calls it made, so that the order of the calls
and the short-circuiting can be stated in its `ensures`.

Modules, one per concern of the source file:

- `Results`: Option / Result / Outcome.
- `JsValues`: JSON values, loose truthiness, property access, `String(v)`,
  thrown errors, `process.env`.
- `HtmlEscape`: `escapeHtml` and the entity decoder that partners it.
- `PrivateKey`: the `\n` rewrite of the private key.
- `Validation`: the required-field filter and the 400 message.
- `Http`: `json(code, obj)`, the preflight answer and the 500 message.
- `Sheets`: `appendToSheet`.
- `Email`: `sendEmail`.
- `LeadCapture`: `exports.handler`.

The model follows the code in three places where a reader might expect
otherwise:

- A required field passes when its value is truthy, so numbers, `true`,
  arrays and objects are accepted as well as non-empty strings.
- A body that parses to `null` makes the first `body[k]` throw a TypeError,
  so the answer is 500, not 400.
- A body that parses to any other non-object value is answered with 400,
  listing all seven names.
- A field holding an object with its own `toString` key passes validation,
  but `String(v)` throws on it while the e-mail body is built. The row is
  already appended by then, and the answer is 500.

## Model

| member | source | states |
|---|---|---|
| `LeadCapture.Handle` | Chatbot/netlify/functions/lead-capture.js:5-39 | OPTIONS gives the preflight answer and any other non-POST method gives 405 `Method Not Allowed`; neither calls a service. A parse failure or a null body gives 500, and missing fields give 400 with the missing-list message; none of these calls a service. On an accepted body the row is appended first, and the mail is sent only if the append succeeded, SMTP is configured and every listed value converts to text (otherwise 500 `Cannot convert object to primitive value`). The answer is 200 `{ok, sheet, email}` iff both calls succeed; any other failure is 500 with its message. At most two calls are made, the append always first. Every answer but the preflight carries the JSON headers. |
| `LeadCapture.BodyText` | Chatbot/netlify/functions/lead-capture.js:23 | An absent or empty body is parsed as `{}`; any other body is parsed as given. |
| `Http.Preflight` | Chatbot/netlify/functions/lead-capture.js:7-16 | Status 204, no body, and exactly the three CORS headers with their values. |
| `Http.JsonResponse` | Chatbot/netlify/functions/lead-capture.js:41-50 | The given status and payload, with exactly the headers `Content-Type: application/json` and `Access-Control-Allow-Origin: *`. |
| `Http.ErrorText` | Chatbot/netlify/functions/lead-capture.js:37 | The 500 message is never empty: it is the error's message when that is non-empty, else `Error interno`. |
| `JsValues.Property` | Chatbot/netlify/functions/lead-capture.js:25 | For the eight names the handler reads, `body[k]` of a non-null JSON value is defined exactly when the body is an object holding key `k`, and then it is that field's value. |
| `JsValues.ToJsString` | Chatbot/netlify/functions/lead-capture.js:142 | `String(v)` throws exactly when `v` is an object with its own `toString` key, or an array that holds such a value at any depth; a string converts to itself. |
| `JsValues.JoinElements` | Chatbot/netlify/functions/lead-capture.js:142 | Converting an array's elements with `join(",")` throws exactly when some element's conversion throws. |
| `JsValues.NatToDecimalValue` | Chatbot/netlify/functions/lead-capture.js:135 | The decimal text of a natural number is non-empty, made only of digits, and reads back as that number. |
| `Validation.MissingMembers` | Chatbot/netlify/functions/lead-capture.js:24-25 | A name is in the missing list iff it is required and its value in the body is falsy (absent, `""`, `0`, `false`, `null`). |
| `Validation.MissingSubsequence` | Chatbot/netlify/functions/lead-capture.js:25 | The missing list is a subsequence of the required list, so it keeps the required-list order. |
| `Validation.MissingDistinct` | Chatbot/netlify/functions/lead-capture.js:24-25 | No name appears twice in the missing list. |
| `Validation.MissingEmptyIff` | Chatbot/netlify/functions/lead-capture.js:26 | The missing list is empty iff every one of the seven required values is truthy. |
| `Validation.MissingAllFromEmpty` | Chatbot/netlify/functions/lead-capture.js:23-25 | An empty object, or a body that is not an object, lacks every required name, in order. |
| `Validation.SplitJoin` | Chatbot/netlify/functions/lead-capture.js:26 | Splitting a `", "`-joined list of comma-free names at `", "` gives the names back. |
| `Validation.MissingMessageLists` | Chatbot/netlify/functions/lead-capture.js:26 | The 400 message is `Faltan campos: ` followed by text that splits at `", "` into exactly the missing names, in order. |
| `HtmlEscape.EscapeTextAppend` | Chatbot/netlify/functions/lead-capture.js:142 | Escaping works character by character: escaping `a + b` is escaping `a` followed by escaping `b`. |
| `HtmlEscape.EscapeTextPlain` | Chatbot/netlify/functions/lead-capture.js:142 | Text without `<`, `>`, `&` and `"` is copied unchanged. |
| `HtmlEscape.EscapeTextNoRaw` | Chatbot/netlify/functions/lead-capture.js:142 | The output holds no raw `<`, `>` or `"`. |
| `HtmlEscape.EscapeTextAmpersands` | Chatbot/netlify/functions/lead-capture.js:142 | Every `&` in the output starts one of `&lt;`, `&gt;`, `&amp;`, `&quot;`. |
| `HtmlEscape.UnescapeStep` | Chatbot/netlify/functions/lead-capture.js:142 | Decoding one escaped character followed by any text gives that character followed by the decoded text. |
| `HtmlEscape.UnescapeEscape` | Chatbot/netlify/functions/lead-capture.js:142 | Decoding the four entities in the output restores the input exactly. |
| `HtmlEscape.EscapeHtmlUndefined` | Chatbot/netlify/functions/lead-capture.js:142 | With the argument missing, the default `''` applies, so the result is the empty string and nothing throws. |
| `PrivateKey.NormalizeKeyHead` | Chatbot/netlify/functions/lead-capture.js:65 | The rewrite never lengthens the key, keeps it empty iff it was empty, and starts with `n` iff the input does. |
| `PrivateKey.NormalizeKeyClean` | Chatbot/netlify/functions/lead-capture.js:65 | No backslash followed by `n` remains in the output. |
| `PrivateKey.NormalizeKeyFixed` | Chatbot/netlify/functions/lead-capture.js:65 | A key with no backslash-`n` pair is returned unchanged. |
| `PrivateKey.NormalizeKeyIdempotent` | Chatbot/netlify/functions/lead-capture.js:65 | Normalising twice gives the same key as normalising once. |
| `PrivateKey.NormalizeKeyPair` | Chatbot/netlify/functions/lead-capture.js:64-65 | Each backslash-`n` pair becomes exactly one newline character, and the text on either side is rewritten independently. |
| `PrivateKey.NormalizeKeyRestores` | Chatbot/netlify/functions/lead-capture.js:64-65 | For a key without backslashes whose newlines were stored as backslash-`n`, normalising gives back the original multi-line key. |
| `PrivateKey.NormalizeKeyNoBackslash` | Chatbot/netlify/functions/lead-capture.js:65 | A key with no backslash at all is returned unchanged. |
| `Sheets.AppendToSheet` | Chatbot/netlify/functions/lead-capture.js:53-98 | A falsy value among the three Sheets variables throws the configuration error before any call. Otherwise exactly one append call is made, with the normalised key, the spreadsheet scope, `USER_ENTERED` and the one row. The result is `{appended: true, range}` iff that call succeeds, and the call's error otherwise. |
| `Sheets.SheetRangeParts` | Chatbot/netlify/functions/lead-capture.js:88 | The range is the `SHEET_TAB` value when truthy, else `Leads`, followed by `!A:I`. |
| `Sheets.RowLayout` | Chatbot/netlify/functions/lead-capture.js:76-86 | The row has 9 cells. Cell 0 is the timestamp. Cells 1-7 are the seven required fields in required-list order. Cell 8 is `origen` when truthy, else `""`. |
| `Sheets.RowOfValidBody` | Chatbot/netlify/functions/lead-capture.js:24-26 | For a body that passed validation, cells 1-7 of the row are all truthy. |
| `Sheets.RequestKeyNormalized` | Chatbot/netlify/functions/lead-capture.js:64-72 | The key given to the JWT has no backslash-`n` pair, and it is the configured key itself when that has no backslash. |
| `Email.Request` | Chatbot/netlify/functions/lead-capture.js:110-115 | The transport uses `Number(SMTP_PORT)` as its port and is `secure` iff that number is 465. |
| `Email.HtmlFieldEscaped` | Chatbot/netlify/functions/lead-capture.js:117-130 | When the body can be built, the value shown for each of the eight listed fields is that field's `String(v)` text passed through `escapeHtml` (`origen` falling back to `''`). None holds a raw `<`, `>` or `"`, and decoding each gives the text back. |
| `Email.HtmlFieldsFail` | Chatbot/netlify/functions/lead-capture.js:117-130 | Building the body throws exactly when one of the eight values handed to `escapeHtml` has a conversion to text that throws. |
| `Email.ToStringFieldThrows` | Chatbot/netlify/functions/lead-capture.js:121 | A `detalle` of `{"toString": 1}` makes building the body throw. |
| `Email.SubjectOfShownBody` | Chatbot/netlify/functions/lead-capture.js:120-135 | Once the body has been built, building the subject cannot throw, because servicio and nombre were already converted. |
| `Email.SubjectNames` | Chatbot/netlify/functions/lead-capture.js:135 | For string values the subject starts `Nuevo lead (` followed by servicio and `) `, and ends with nombre. |
| `Email.SubjectExample` | Chatbot/netlify/functions/lead-capture.js:135 | For servicio `Contabilidad` and nombre `Ana Pérez` the subject is `Nuevo lead (Contabilidad) – Ana Pérez`. |
| `Email.SendEmail` | Chatbot/netlify/functions/lead-capture.js:101-140 | A falsy value among the six SMTP variables throws the configuration error before any send. A listed value whose conversion to text throws gives `Cannot convert object to primitive value` before any send. Otherwise exactly one send is made, with the transport options, subject and escaped fields. The result is `{messageId}` iff the send succeeds, and the send's error otherwise. |

## Left out

- Google JWT authentication and `spreadsheets.values.append` are out. They are foreign network calls; the `append` parameter stands for both, and it either passes or throws.
- `nodemailer.createTransport` and `sendMail` are out, for the same reason; the `send` parameter stands for both and yields a message id or throws.
- Each capability is a function of its request. That is enough because it is called at most once per request.
- `JSON.parse` is the `parse` parameter. `JSON.stringify` is not modelled: response bodies are structured `Payload` values, not text.
- `new Date().toISOString()` and `toLocaleString()` depend on the clock and locale. They are the two opaque strings of `Clock`.
- `Number(SMTP_PORT)` is the `portNumber` parameter. It yields None when the result is not an integer (NaN included).
- `process.env` is a map passed in.
- `console.error` is left out: logging has no effect on the answer.
- async/await and the platform's concurrency are left out. Within one request everything is sequential, and nothing is shared between requests.
- Email.Request: represents the HTML body only by its eight escaped values and the date line; the labels and whitespace of the template are not modelled.
- JSON numbers are integers in the model. Fractional numbers and their string form are left out; their truthiness (non-zero) is the same.
- JsValues.ToJsString: writes every integer in plain decimal. JavaScript's `String` uses exponent form from 1e21 on (`1e+21`), and `JSON.parse` rounds integers beyond 2^53 to the nearest double. Both need IEEE-754 doubles, which the model does not have, so the subject and the e-mail text differ for such numbers.
- Strings are sequences of Unicode scalar values, not UTF-16 code units.
- Property reads see only an object's own fields. Object.prototype holds none of the names read, and the special `__proto__` key of `JSON.parse` is not modelled.
- The TypeError text for a null body is the V8 wording. The handler's behaviour depends only on that text being non-empty.
- Thrown values are reduced to their `message` property, which may be absent or empty. A thrown `null` or `undefined` is not modelled: then `err.message` would itself throw inside the catch block.
