/** The handler of made.js: it forwards a single `user_prompt` to the
    upstream service, with the system prompt in the request's `config`, and
    returns the reply's text. */
module PromptHandler {
  import opened Wrappers
  import opened Http
  import opened Gemini

  /** The parsed request body: `user_prompt`, possibly absent. */
  datatype PromptRequest = PromptRequest(userPrompt: Option<string>)

  const MissingPrompt := Response(400, CorsHeaders, ErrorJson(Some("Falta el parámetro 'user_prompt'.")))

  /** The upstream body: the system prompt under `config.systemInstruction`
      and exactly one user message whose one part is the prompt, unmodified. */
  function RequestFor(sys: string, userPrompt: string): (g: GenerateRequest)
    ensures g.config == Some(Config(sys))
    ensures |g.contents| == 1
    ensures g.contents[0].role == "user" && g.contents[0].parts == [Part(userPrompt)]
  {
    GenerateRequest(Some(Config(sys)), [Content("user", [Part(userPrompt)])])
  }

  /** Everything the handler does before the upstream call. A falsy prompt
      (absent or empty) is answered with 400 and nothing is forwarded. */
  function Decide(settings: Settings, event: Event<PromptRequest>): (s: Step)
    ensures s.Forward? <==>
      event.httpMethod == "POST" && Truthy(settings.apiKey) && event.body.Some? && Truthy(event.body.value.userPrompt)
    ensures s.Forward? ==>
      s.call.url == Url(settings.apiKey.value) && s.call.request == RequestFor(settings.systemInstructions, event.body.value.userPrompt.value)
    ensures s.Respond? ==> s.response.headers == CorsHeaders && s.response.statusCode in {204, 400, 405, 500}
    ensures Gate(event.httpMethod, settings.apiKey).Some? ==> s == Respond(Gate(event.httpMethod, settings.apiKey).value)
    ensures event.httpMethod == "POST" && Truthy(settings.apiKey) && event.body.None? ==> s == Respond(InternalError)
    ensures event.httpMethod == "POST" && Truthy(settings.apiKey) && event.body.Some? && !Truthy(event.body.value.userPrompt) ==>
      s == Respond(MissingPrompt)
  {
    match Gate(event.httpMethod, settings.apiKey)
    case Some(r) => Respond(r)
    case None =>
      match event.body
      case None => Respond(InternalError)
      case Some(body) =>
        if !Truthy(body.userPrompt) then Respond(MissingPrompt)
        else Forward(Call(Url(settings.apiKey.value), RequestFor(settings.systemInstructions, body.userPrompt.value)))
  }

  /** The whole invocation, given what the upstream service answered to the
      forwarded call (ignored when nothing is forwarded). */
  function Handle(settings: Settings, event: Event<PromptRequest>, reply: Reply): (r: Response)
    ensures r.headers == CorsHeaders
    ensures r.statusCode in {200, 204, 400, 405, 500}
      || (reply.Replied? && !IsOk(reply.status) && r.statusCode == reply.status)
    ensures r.statusCode == 200 ==> Decide(settings, event).Forward? && r.body.TextJson?
    ensures event.httpMethod == "OPTIONS" ==> r == Preflight
    ensures Decide(settings, event).Respond? ==> r == Decide(settings, event).response
    ensures Decide(settings, event).Forward? ==> r == ShapeReply(reply)
  {
    match Decide(settings, event)
    case Respond(response) => response
    case Forward(_) => ShapeReply(reply)
  }

  /** The preflight, method and key checks come before the body is parsed:
      when one of them answers, neither the body nor the upstream reply can
      change the response, and no call is forwarded. */
  lemma ChecksPrecedeBody(settings: Settings, e1: Event<PromptRequest>, e2: Event<PromptRequest>, reply1: Reply, reply2: Reply)
    requires e1.httpMethod == e2.httpMethod
    requires !(e1.httpMethod == "POST" && Truthy(settings.apiKey))
    ensures Decide(settings, e1).Respond? && Decide(settings, e2).Respond?
    ensures Handle(settings, e1, reply1) == Handle(settings, e2, reply2)
    ensures Handle(settings, e1, reply1).statusCode in {204, 405, 500}
  {
  }

  /** An upstream failure reaches the caller with the upstream status and
      the upstream message, or the fallback when the payload has no error. */
  lemma UpstreamErrorPassedThrough(settings: Settings, event: Event<PromptRequest>, status: int, data: ReplyData)
    requires event.httpMethod == "POST" && Truthy(settings.apiKey) && event.body.Some? && Truthy(event.body.value.userPrompt)
    requires !IsOk(status)
    ensures Handle(settings, event, Replied(status, Some(data))).statusCode == status
    ensures Handle(settings, event, Replied(status, Some(data))).body ==
      ErrorJson(if data.error.Some? then data.error.value.message else Some(UnknownError))
  {
  }

  /** A successful reply yields 200 with the first candidate's first part. */
  lemma SuccessReturnsFirstPart(settings: Settings, event: Event<PromptRequest>, status: int, data: ReplyData)
    requires event.httpMethod == "POST" && Truthy(settings.apiKey) && event.body.Some? && Truthy(event.body.value.userPrompt)
    requires IsOk(status) && |data.candidates| > 0 && |data.candidates[0].parts| > 0
    ensures Handle(settings, event, Replied(status, Some(data))) ==
      Response(200, CorsHeaders, TextJson(data.candidates[0].parts[0].text))
  {
  }
}
