/** The handler of netlify/functions/made.js: it forwards a whole
    conversation history, formatted by `History.Format`, to the upstream
    service and returns the reply's text. */
module ChatHandler {
  import opened Wrappers
  import opened Http
  import opened Gemini
  import History

  /** The parsed request body: `conversation_history`, possibly absent. */
  datatype ChatRequest = ChatRequest(conversationHistory: Option<seq<History.Turn>>)

  const MissingHistory := Response(400, CorsHeaders, ErrorJson(Some("Falta el historial de la conversación.")))

  /** `conversation_history` is present and not empty. */
  predicate HasHistory(body: ChatRequest) {
    body.conversationHistory.Some? && |body.conversationHistory.value| > 0
  }

  /** Everything the handler does before the upstream call: it either answers
      at once or forwards a call whose body holds only the formatted history. */
  function Decide(settings: Settings, event: Event<ChatRequest>): (s: Step)
    ensures s.Forward? <==>
      event.httpMethod == "POST" && Truthy(settings.apiKey) && event.body.Some? && HasHistory(event.body.value)
    ensures s.Forward? ==>
      s.call == Call(Url(settings.apiKey.value),
                     GenerateRequest(None, History.Format(settings.systemInstructions, event.body.value.conversationHistory.value)))
    ensures s.Respond? ==> s.response.headers == CorsHeaders && s.response.statusCode in {204, 400, 405, 500}
    ensures Gate(event.httpMethod, settings.apiKey).Some? ==> s == Respond(Gate(event.httpMethod, settings.apiKey).value)
    ensures event.httpMethod == "POST" && Truthy(settings.apiKey) && event.body.None? ==> s == Respond(InternalError)
    ensures event.httpMethod == "POST" && Truthy(settings.apiKey) && event.body.Some? && !HasHistory(event.body.value) ==>
      s == Respond(MissingHistory)
  {
    match Gate(event.httpMethod, settings.apiKey)
    case Some(r) => Respond(r)
    case None =>
      match event.body
      case None => Respond(InternalError)
      case Some(body) =>
        if !HasHistory(body) then Respond(MissingHistory)
        else Forward(Call(Url(settings.apiKey.value),
                          GenerateRequest(None, History.Format(settings.systemInstructions, body.conversationHistory.value))))
  }

  /** The whole invocation, given what the upstream service answered to the
      forwarded call (ignored when nothing is forwarded). */
  function Handle(settings: Settings, event: Event<ChatRequest>, reply: Reply): (r: Response)
    ensures r.headers == CorsHeaders
    ensures r.statusCode in {200, 204, 400, 405, 500}
      || (reply.Replied? && !IsOk(reply.status) && r.statusCode == reply.status)
    ensures r.statusCode == 200 ==> Decide(settings, event).Forward? && r.body.TextJson?
    ensures event.httpMethod == "OPTIONS" ==> r == Preflight
    ensures Decide(settings, event).Respond? ==> r == Decide(settings, event).response
    ensures Decide(settings, event).Forward? ==> r == ShapeReply(reply)
  {
    match Decide(settings, event)
    case Respond(response) => response
    case Forward(_) => ShapeReply(reply)
  }

  /** The preflight, method and key checks come before the body is parsed:
      when one of them answers, neither the body nor the upstream reply can
      change the response, and no call is forwarded. */
  lemma ChecksPrecedeBody(settings: Settings, e1: Event<ChatRequest>, e2: Event<ChatRequest>, reply1: Reply, reply2: Reply)
    requires e1.httpMethod == e2.httpMethod
    requires !(e1.httpMethod == "POST" && Truthy(settings.apiKey))
    ensures Decide(settings, e1).Respond? && Decide(settings, e2).Respond?
    ensures Handle(settings, e1, reply1) == Handle(settings, e2, reply2)
    ensures Handle(settings, e1, reply1).statusCode in {204, 405, 500}
  {
  }

  /** An upstream failure reaches the caller with the upstream status and
      the upstream message, or the fallback when the payload has no error. */
  lemma UpstreamErrorPassedThrough(settings: Settings, event: Event<ChatRequest>, status: int, data: ReplyData)
    requires event.httpMethod == "POST" && Truthy(settings.apiKey) && event.body.Some? && HasHistory(event.body.value)
    requires !IsOk(status)
    ensures Handle(settings, event, Replied(status, Some(data))).statusCode == status
    ensures Handle(settings, event, Replied(status, Some(data))).body ==
      ErrorJson(if data.error.Some? then data.error.value.message else Some(UnknownError))
  {
  }

  /** A successful reply yields 200 with the first candidate's first part. */
  lemma SuccessReturnsFirstPart(settings: Settings, event: Event<ChatRequest>, status: int, data: ReplyData)
    requires event.httpMethod == "POST" && Truthy(settings.apiKey) && event.body.Some? && HasHistory(event.body.value)
    requires IsOk(status) && |data.candidates| > 0 && |data.candidates[0].parts| > 0
    ensures Handle(settings, event, Replied(status, Some(data))) ==
      Response(200, CorsHeaders, TextJson(data.candidates[0].parts[0].text))
  {
  }

  /** A history holding only the greeting passes the emptiness check, yet
      the call forwarded upstream has no contents at all. */
  lemma GreetingOnlyForwardsNoContents(settings: Settings)
    requires Truthy(settings.apiKey)
    ensures Decide(settings, Event("POST", Some(ChatRequest(Some([History.Turn("model", History.Greeting)])))))
      == Forward(Call(Url(settings.apiKey.value), GenerateRequest(None, [])))
  {
    History.GreetingOnly(settings.systemInstructions);
  }
}
