# crm-ia-backend: the lead-analysis handler

A Dafny model of the `POST /api/analizar` handler in `server.js`. A CRM front end
posts a lead, the seller's notes and lists of interactions and activities. The
handler checks the request, renders the lead as a Spanish text block, embeds that
block in a fixed prompt and sends it once to an OpenAI chat-completion service. It
returns the parsed JSON of the model's answer as `analisis`. If the answer is not
JSON, it returns the raw text as an object with a single `resumen_ejecutivo` field.

The handler is pure guard-and-return logic, so the model is built from datatypes,
functions and lemmas:

- `wrappers.dfy`: `Option`, for JavaScript values that may be `undefined` or `null`.
- `text.dfy`: the JavaScript string operations the handler uses. These are the
  decimal text of the list index and `Array.prototype.join`. The file also holds
  two reference readers, `Split` (what `String.prototype.split` does with a
  one-character separator) and `DigitsValue`, with the lemmas that connect them
  to the renderings.
- `json.dfy`: JSON values, plus property lookup on objects.
- `leadinfo.dfy`: the `infoLead` block (`server.js:42-61`). It also holds a reader
  that turns a rendered list back into its entries, used to prove that the
  rendering loses nothing.
- `prompt.dfy`: the user prompt (`server.js:63-80`).
- `handler.dfy`: the handler as one function, `Handle`. Its inputs are the request
  body, the configuration (the API key), the completion service and the JSON
  parser. The service and the parser are function parameters (oracles). `Handle`
  returns the response together with the list of prompts it sent to the service.
  That list is how the model states that no call is made on the error paths and
  exactly one call is made otherwise.

How JavaScript values are modelled:

- A string value is truthy when it is present and not `""`.
- `lead` is an object, so it is truthy exactly when it is present.
- The collections are `Option<seq<string>>`. `coll || []` turns an absent
  collection into the empty list.
- `server.js` is stored with CRLF line endings. JavaScript template literals
  turn every CRLF into a single LF, so every template text here uses `"\n"` only.

What the handler does on its error and fallback paths:

- Validation rejects a request when `lead` is missing and also when `notas` is
  missing or empty.
- An upstream reply that is not ok gives a 500 whose `detalle` is the whole
  error body.
- The only parse fallback is the single-key `resumen_ejecutivo` object, which
  holds the whole content.

## Model

| member | source | states |
|---|---|---|
| `LeadInfo.FieldText` | server.js:44-47 | A contact field (name, email, phone, source) shows its own text when truthy, and exactly "N/D" when it is absent or empty. The result is never empty. It is "N/D" only for the fallback or for a value that is literally "N/D". |
| `LeadInfo.OrElse` | server.js:50 | The logical-or fallback on a value that is a string or absent: the value's text when it is truthy, otherwise the fallback text. |
| `Text.NatToString` | server.js:54 | The list number is rendered as a non-empty string of decimal digits with no leading zero. `Text.NatToStringValue` proves that reading the digits gives back the number. |
| `Text.Join` | server.js:55 | `join` of the empty list is "", and a non-empty list's join starts with its first element. |
| `LeadInfo.ItemsOf` | server.js:53 | The fallback to an empty array for a missing collection: a present list is itself (an empty list included), an absent one is the empty list. |
| `LeadInfo.ItemLine` | server.js:54 | No contract; specified through `LeadInfo.ParseItemLineRoundTrip`. |
| `LeadInfo.ParseItemLineRoundTrip` | server.js:54 | The line " k. x" built for number k and entry x reads back as exactly (k, x), whatever x holds. |
| `LeadInfo.ItemLinesFrom` | server.js:53-54 | One line per entry, in order. `LeadInfo.DecodeItemLines` proves the lines read back as the entries, numbered consecutively from the first number. |
| `LeadInfo.RenderList` | server.js:53-60 | An absent or empty collection renders exactly its placeholder. A non-empty one renders its " k. x" lines joined by line breaks (never the placeholder). That output starts with a space, even for `[""]`. |
| `LeadInfo.RenderListRoundTrip` | server.js:53-60 | Reading a rendered list back gives exactly its entries, in input order, numbered 1..n, and no entries for an absent or empty list. This holds for every list whose entries do not span lines, with a placeholder that does not start with a space. |
| `LeadInfo.RenderListExamples` | server.js:53-60 | `[""]` renders " 1. " (not the placeholder). `[]` renders the activities placeholder. |
| `LeadInfo.RenderListTwoEntries` | server.js:53-60 | `["llamada", "visita"]` renders " 1. llamada", a line break, then " 2. visita". |
| `LeadInfo.InfoTemplate` | server.js:42-61 | No contract; specified through `LeadInfo.InfoTemplateLines`, which gives the line structure of the template for any seven hole values. |
| `LeadInfo.InfoLead` | server.js:42-61 | No contract; specified through `LeadInfo.InfoLeadLines` and `Handler.SentInfoLines`. |
| `LeadInfo.InfoLeadLines` | server.js:42-61 | The `infoLead` block, split into lines, is: an empty line, `LEAD:`, the four field lines in order (none dropped), the notes section, the interactions section and the activities section (each after an empty line and its title), then a final empty line. |
| `AnalysisPrompt.Prompt` | server.js:63-80 | The lead block is embedded verbatim: `EmbeddedInfo`, which reads the text between the fixed opening and the final line break, gives back exactly the block. So two different blocks never give the same prompt. |
| `AnalysisPrompt.PromptFixedText` | server.js:63-80 | The prompt is the fixed instruction text, then the line "Información del lead:", then the lead block, then one line break. Nothing outside the block depends on the input. |
| `Handler.BodyOrEmpty` | server.js:28 | No contract; specified through `Handler.Handle`, whose 400 case covers a missing body. |
| `Handler.HasLeadAndNotes` | server.js:30 | No contract; `Handler.Handle` states that the status is 400 exactly when it fails. |
| `Handler.PromptFor` | server.js:42-80 | The prompt sent for a request embeds that request's `infoLead` block, and `EmbeddedInfo` recovers it exactly. |
| `Handler.ContentText` | server.js:113 | The text given to the parser is the reply's content when that is truthy, and "{}" otherwise. It is never empty. |
| `Handler.Analysis` | server.js:115-121 | If the content parses, `analisis` is the parsed value. If not, it is an object whose only key is `resumen_ejecutivo`, and that key holds the whole content. |
| `Handler.Handle` | server.js:28-123 | Status 400 is returned exactly when `lead` or `notas` is falsy (including a missing body), with the "Faltan datos del lead o las notas" error and no upstream call. If both are present but the key is unset, the result is a 500 with the key error and no call. Otherwise there is exactly one call, carrying the rendered prompt. A reply that is not ok gives a 500 whose `detalle` is the error body. A thrown error gives the generic 500. A completion gives a 200 with the analysis of its content. Every status is 200, 400 or 500. |
| `Handler.SentInfoLines` | server.js:30-61 | For a request that passes the guards, the block embedded in the sent prompt has `notas` verbatim as its notes section, never "Sin notas registradas.". Its other lines are as `InfoLeadLines` states. |
| `Handler.MissingContentIsEmptyObject` | server.js:113-121 | If the reply has no content (absent or ""), and the parser reads "{}" as the empty object, then `analisis` is the empty object. Through `Handle`, that is the body of the 200 response. |

## Left out

- Express setup, the CORS configuration, the `GET /check` route, and `app.listen` with its `PORT` default (`server.js:3-23`, `server.js:133-137`): framework plumbing with no logic.
- The `fetch` request itself: the URL, the headers with the bearer key, the body serialisation, the model name, `temperature: 0.3` and the fixed system message (`server.js:83-101`). The service is a function parameter, and the model records only the user prompt sent to it.
- `JSON.parse` and `respuesta.json()`: the parser is an oracle parameter. A reply body that is not JSON, or a network failure, is the `Threw` reply, which goes to the outer catch (`server.js:124-130`).
- `console.error` and `console.log` calls: logging side effects only.
- JavaScript coercion of values that are not strings: lead fields or notes that are numbers, arrays or objects, collection entries that are objects (rendered "[object Object]"), and a lead that is a truthy non-object. The model takes lead fields, notes and entries to be strings, and the lead to be an object.
- A truthy collection that is not an array makes `.map` throw a TypeError, which the outer catch turns into a 500. The model's collections are always lists, so this path is not modelled.
- A content value that is not a string (for example a number) would be passed to `JSON.parse` as is. The model treats content as a string or absent.
- JavaScript strings are sequences of UTF-16 code units, while the model's `string` is a sequence of Unicode scalar values. A field, note, list entry or reply content holding an unpaired surrogate (such as `"\ud800"` in the request JSON) has no model value. The handler only concatenates, tests for `""` and splits on line breaks, so nothing it does depends on the difference.
