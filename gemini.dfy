/** The upstream generative-language service: the request both handlers
    send and the shaping of its reply into the handler's response. */
module Gemini {
  import opened Wrappers
  import opened Http

  /** The system prompt, identical in both handlers. */
  const SystemInstructions: string := "\nEres MADE 🛍️, una Asistente de Compras Virtual experta, amable y altamente empática. Tu misión es actuar como una personal shopper digital.\nQue sabes: Experta en tecnología 📱, ropa 👟, hogar 🛋️, cocina 🍳, y más.\nTu Tarea Principal: No dar la respuesta final, sino hacer preguntas clave y concisas (una a la vez) para refinar la búsqueda del cliente (Ej: \"¿Cuál es tu presupuesto? 💸\" o \"¿Qué tipo de tela prefieres? 🌿\").\nRegla de Oro: NUNCA des una recomendación final a menos que el cliente te acorrale en 1-2 opciones. Siempre usa emojis 🤩 para mantener el tono ligero.\n"

  /** The handler module's globals: `API_KEY`, read from the environment,
      and the system prompt. The handlers take them as a value, so that
      their properties are stated for any prompt. */
  datatype Settings = Settings(apiKey: Option<string>, systemInstructions: string)

  /** The settings of the deployed handler. */
  function DeployedSettings(apiKey: Option<string>): Settings {
    Settings(apiKey, SystemInstructions)
  }

  const Endpoint := "https://generativelanguage.googleapis.com/v1beta/models/gemini-2.5-flash:generateContent"

  /** The fallback message for an upstream error without an `error` object. */
  const UnknownError := "Error desconocido de Gemini."

  datatype Part = Part(text: string)

  /** One upstream message: `{role, parts}`. */
  datatype Content = Content(role: string, parts: seq<Part>)

  datatype Config = Config(systemInstruction: string)

  /** The JSON request body: an optional `config` and the `contents` list. */
  datatype GenerateRequest = GenerateRequest(config: Option<Config>, contents: seq<Content>)

  /** The HTTPS POST a handler issues: the URL carrying the key, and the body. */
  datatype Call = Call(url: string, request: GenerateRequest)

  function Url(apiKey: string): string {
    Endpoint + "?key=" + apiKey
  }

  /** A handler's decision before the upstream call: answer directly, or
      forward the call. */
  datatype Step = Respond(response: Response) | Forward(call: Call)

  /** The decoded upstream payload. A candidate whose `content` is missing
      is represented by an empty `parts` list: both make the handler throw. */
  datatype ReplyPart = ReplyPart(text: Option<string>)
  datatype Candidate = Candidate(parts: seq<ReplyPart>)
  datatype ErrorInfo = ErrorInfo(message: Option<string>)
  datatype ReplyData = ReplyData(error: Option<ErrorInfo>, candidates: seq<Candidate>)

  /** What the upstream call produced: `Threw` when `fetch` rejects;
      otherwise the HTTP status and the result of `response.json()`, `None`
      when that throws or yields `null`, since reading a field of `null`
      throws. */
  datatype Reply = Threw | Replied(status: int, data: Option<ReplyData>)

  /** `response.ok` of the Fetch standard: a status in 200-299. */
  predicate IsOk(status: int) {
    200 <= status <= 299
  }

  /** `data.error ? data.error.message : UnknownError`. */
  function UpstreamMessage(data: ReplyData): (m: Option<string>)
    ensures data.error.None? ==> m == Some(UnknownError)
    ensures data.error.Some? ==> m == data.error.value.message
  {
    match data.error
    case None => Some(UnknownError)
    case Some(e) => e.message
  }

  /** Turns the upstream reply into the handler's response; every exception
      on the way is caught and answered with the internal-error response. */
  function ShapeReply(reply: Reply): (r: Response)
    ensures r.headers == CorsHeaders
    ensures reply.Threw? || reply.data.None? ==> r == InternalError
    ensures reply.Replied? && reply.data.Some? && !IsOk(reply.status) ==>
      r == Response(reply.status, CorsHeaders, ErrorJson(UpstreamMessage(reply.data.value)))
    ensures r.statusCode == 200 <==>
      reply.Replied? && IsOk(reply.status) && reply.data.Some?
      && |reply.data.value.candidates| > 0 && |reply.data.value.candidates[0].parts| > 0
    ensures r.statusCode == 200 ==>
      r.body == TextJson(reply.data.value.candidates[0].parts[0].text)
    ensures r.statusCode != 200 && r != InternalError ==>
      reply.Replied? && !IsOk(reply.status) && r.statusCode == reply.status
  {
    match reply
    case Threw => InternalError
    case Replied(status, None) => InternalError
    case Replied(status, Some(data)) =>
      if !IsOk(status) then
        Response(status, CorsHeaders, ErrorJson(UpstreamMessage(data)))
      else if |data.candidates| == 0 || |data.candidates[0].parts| == 0 then
        InternalError
      else
        Response(200, CorsHeaders, TextJson(data.candidates[0].parts[0].text))
  }
}
