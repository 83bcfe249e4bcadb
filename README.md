# made-gemini-proxy, modelled in Dafny

The repository holds a serverless HTTP handler that sits between a shopping
widget and a generative-language service. Two versions of the handler are
modelled here:

- `made.js` forwards one `user_prompt`. The system prompt travels under
  `config.systemInstruction`.
- `netlify/functions/made.js` forwards a whole `conversation_history`. Its
  formatter turns each `{role, text}` turn into an upstream
  `{role, parts: [{text}]}` message:
  - every user turn gets the label `"El cliente dice: "`;
  - the first user turn also gets the system prompt in front;
  - two filters drop model turns that echo the system prompt (compared
    after `trim`) or repeat the widget's greeting.

Both handlers run in the same fixed order:

1. The CORS preflight answers 204.
2. Any other method except POST answers 405.
3. A missing API key answers 500.
4. The body is parsed. A missing field answers 400.
5. Otherwise one call goes upstream, and its reply becomes the response:
   - success gives 200 with the first candidate's text;
   - an upstream error passes through its status and message;
   - an exception gives 500.

Each handler is split into `Decide`, which answers at once or yields the
`Call` it would forward, and `Handle`, which adds the shaping of the
upstream reply. The reply is a parameter. "No upstream call is made" means
`Decide(...)` is `Respond(...)`.

Behaviour of the code that a reader of the comments might not expect:

- A user turn at index 0 gets the prefix twice. Both the `index === 0`
  block and the `isFirstUserMessage` block fire for it, so its text is
  `Annotate(sys, Annotate(sys, t))`. The model reproduces this (see
  `History.FormatTurn`, `History.FirstUserSent`, `History.SingleUserTurn`).
  The comments beside that code speak of attaching the instructions to the
  first user message once; the model follows the code, not the comments.
- Besides the greeting, the code also drops model turns whose trimmed text
  is the trimmed system prompt.
- A history made only of the greeting passes the emptiness check, and then
  an empty `contents` list is sent upstream
  (`ChatHandler.GreetingOnlyForwardsNoContents`).
- `response.json()` runs before `response.ok` is looked at. A non-JSON
  error reply therefore gives 500, not the upstream status.

The source reads two configuration values: the API key, from the
environment, and the system prompt, a constant. The model passes them as a `Settings`
value (`Gemini.Settings`). `History` takes the prompt as a parameter `sys`.
`Gemini.DeployedSettings` pairs a key with the constant
`Gemini.SystemInstructions`, which is written out in full. Every property
is therefore proved for any prompt, including the deployed one. This also
keeps the solver away from the long literal.

Files: `wrappers.dfy` (Option), `seqs.dfy` (`Array.prototype.filter`),
`jstext.dfy` (`String.prototype.trim`), `http.dfy` (event, response, CORS
headers, the method and key checks), `gemini.dfy` (upstream request and
reply, reply shaping shared by both handlers), `history.dfy` (the
formatter), `chat_handler.dfy` and `prompt_handler.dfy` (the two handlers).

## Model

| member | source | states |
|---|---|---|
| Http.Gate | made.js:27-40 | OPTIONS always gives the 204 preflight; any other non-POST method gives 405 whatever the key; only a POST with a key goes on (iff), and a POST without a key gives the 500 key error |
| Gemini.UpstreamMessage | made.js:70 | no upstream `error` object gives the fallback "Error desconocido de Gemini."; otherwise the upstream message is returned as is, absent if it has none |
| Gemini.ShapeReply | made.js:66-93 | CORS headers always; a thrown fetch or undecodable payload gives the 500 proxy error; a non-ok status is passed through with the upstream message; 200 iff the status is ok and a first candidate with a first part exists, and then the body is that part's text |
| JsText.Trim | netlify/functions/made.js:79 | the result is the infix `s[a..b]` left after cutting only white space off both ends, and it neither starts nor ends with JavaScript white space; trimmed strings are unchanged and all-space strings become empty |
| Seqs.Filter | netlify/functions/made.js:79-82 | an element is in the result iff it is in the input and satisfies the predicate; the result is no longer than the input |
| Seqs.FilterConjunction | netlify/functions/made.js:79-82 | two filters in a row equal one filter by the conjunction |
| Seqs.FilterKeepsAll | netlify/functions/made.js:79-82 | filtering a sequence whose elements all pass returns it unchanged |
| Seqs.KeptIndices | netlify/functions/made.js:79-82 | strictly increasing indices of elements that pass, containing every passing index from the start point on |
| Seqs.FilterIsAtKeptIndices | netlify/functions/made.js:79-82 | a filter keeps exactly the elements at the passing indices, in input order |
| History.FormatTurn | netlify/functions/made.js:49-78 | role kept, exactly one part; the first user turn at index 0 gets the system prompt and label twice, at a later index once; every later user turn gets only the label; other roles keep their text; the empty block at 60-62 changes nothing |
| History.Mapped | netlify/functions/made.js:49-78 | one message per turn, in turn order, each the formatting of the turn at that index |
| History.NotEchoedInstructions | netlify/functions/made.js:79 | the first filter keeps every non-model message, and keeps a one-part model message iff its trimmed text differs from the trimmed system prompt |
| History.NotGreeting | netlify/functions/made.js:82 | the second filter keeps every non-model message, and keeps a one-part model message iff its text is not the greeting |
| History.Format | netlify/functions/made.js:49-82 | the contents sent upstream are no more than the turns, and each is the formatting of some input turn that passes both filters |
| History.FormatIsOneFilter | netlify/functions/made.js:79-82 | the two filters over the mapped turns are one filter by `Kept` |
| History.FormatSelectsSurvivors | netlify/functions/made.js:49-82 | the output is exactly the formatted surviving turns, in input order: position j holds the turn at the j-th surviving index, and an index survives iff `Survives` holds |
| History.SurvivesIff | netlify/functions/made.js:79-82 | a turn is dropped iff it is a model turn whose trimmed text equals the trimmed system prompt or whose text equals the greeting; user turns and other roles are never dropped |
| History.FormatDropsEchoes | netlify/functions/made.js:75-82 | every output message has one part and the role of an input turn, and no output model message is the greeting or an echo of the trimmed system prompt, wherever it sat |
| History.FormatIsFiltered | netlify/functions/made.js:79-82 | applying either filter again to the output changes nothing |
| History.FirstUserUnique | netlify/functions/made.js:66 | at most one turn is the first user turn, and one exists whenever a user turn does |
| History.FirstUserSent | netlify/functions/made.js:54-82 | the first user turn always reaches the output, carrying the prompt twice at index 0 and once elsewhere |
| History.SingleUserTurn | netlify/functions/made.js:49-82 | `[{user, "hola"}]` formats to one user message with the prefix applied twice |
| History.GreetingOnly | netlify/functions/made.js:79-82 | a history holding only the greeting formats to no message, whatever the system prompt |
| History.FoldFormat | netlify/functions/made.js:49-79 | a one-pass reference formatter carrying a "seen a user turn" flag yields one message per turn |
| History.FormatAgreesWithFold | netlify/functions/made.js:49-82 | the index-based map equals the one-pass fold, so the output is the fold followed by one filter |
| ChatHandler.Decide | netlify/functions/made.js:28-87 | a call is forwarded iff the method is POST, a key is set, the body parses and the history is present and non-empty; the call carries the key in its URL and only the history formatted with the configured prompt; otherwise the method and key checks' own answer (204, 405 or the 500 key error), then 500 for an unparsable body and 400 for a missing or empty history |
| ChatHandler.Handle | netlify/functions/made.js:26-124 | CORS headers always; status is one of 200, 204, 400, 405, 500 or the upstream's non-ok status; 200 only after forwarding, with a text body; OPTIONS is the preflight; a direct answer of `Decide` is returned as is, and a forwarded call answers `ShapeReply(reply)`, so a thrown fetch or undecodable payload gives the 500 proxy error |
| ChatHandler.ChecksPrecedeBody | netlify/functions/made.js:28-37 | when the method or the key check answers, the body and the upstream reply do not affect the response, no call is forwarded and the status is 204, 405 or 500 |
| ChatHandler.UpstreamErrorPassedThrough | netlify/functions/made.js:97-106 | a non-ok upstream reply gives its own status and the upstream message or the fallback |
| ChatHandler.SuccessReturnsFirstPart | netlify/functions/made.js:108-114 | an ok reply with a candidate part gives 200 with that part's text |
| ChatHandler.GreetingOnlyForwardsNoContents | netlify/functions/made.js:44-87 | a history holding only the greeting is forwarded with empty contents |
| PromptHandler.RequestFor | made.js:50-58 | `config.systemInstruction` is the configured system prompt and `contents` is exactly one user message whose one part is the prompt, unmodified |
| PromptHandler.Decide | made.js:27-64 | a call is forwarded iff the method is POST, a key is set, the body parses and `user_prompt` is truthy; the call's URL carries the key and its body is `RequestFor(prompt)`; otherwise the method and key checks' own answer (204, 405 or the 500 key error), then 500 for an unparsable body and 400 for an absent or empty prompt |
| PromptHandler.Handle | made.js:24-94 | CORS headers always; status is one of 200, 204, 400, 405, 500 or the upstream's non-ok status; 200 only after forwarding, with a text body; OPTIONS is the preflight; a direct answer of `Decide` is returned as is, and a forwarded call answers `ShapeReply(reply)`, so a thrown fetch or undecodable payload gives the 500 proxy error |
| PromptHandler.ChecksPrecedeBody | made.js:35-40 | when the method or the key check answers, the body and the upstream reply do not affect the response, no call is forwarded and the status is 204, 405 or 500 |
| PromptHandler.UpstreamErrorPassedThrough | made.js:68-76 | a non-ok upstream reply gives its own status and the upstream message or the fallback |
| PromptHandler.SuccessReturnsFirstPart | made.js:78-84 | an ok reply with a candidate part gives 200 with that part's text |

## Left out

- The HTTPS call (`fetch`) is not modelled. The upstream answer is the
  parameter `reply`, and `Threw` stands for a rejected call.
- `JSON.parse`, `JSON.stringify` and `response.json()` are not modelled.
  Parsed bodies are datatypes. A body that does not parse, or parses to
  `null`, is `None` and leads to 500, because the property read on it
  throws. Any other non-object value (a number, a string, a boolean, an
  array) parses and lacks the field, so it is the body with the field
  absent and leads to 400.
- `process.env` is not read. The key is an `Option<string>` parameter.
- `console.error`, `async`/`await` and the `context` argument are left out.
- JavaScript values of the wrong type are not modelled, because fields are
  typed. This covers a turn that is `null` or has a non-string `text`, a
  `conversation_history` that is not an array, a truthy non-string
  `user_prompt`, and a falsy non-object `error` field. In the source these
  coerce (`"undefined"`) or throw (a `.trim()` on undefined gives 500).
- A candidate with no `content` is merged with a candidate with no parts.
  Both make the source throw and answer 500.
- Headers are a constant map attached to every response. Their meaning to
  browsers is not modelled.
- The URL is the endpoint, `?key=` and the key, joined as JavaScript
  template strings join them. The key is inserted without encoding, as in
  the source.
- Roles are plain strings and are not validated, as in the source.
- Context sets, the rating adapter and the request router are not part of
  this model. They belong to other versions of the handler.
