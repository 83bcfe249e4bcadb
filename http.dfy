/** The hosting platform's side of a handler invocation: the inbound event,
    the response record and the checks both handlers make before they look
    at the request body. */
module Http {
  import opened Wrappers

  /** An inbound event. `body` is the result of `JSON.parse(event.body)`
      followed by the handler's property read: `None` when parsing throws or
      yields `null`, so that the read throws. Any other value that is not an
      object (a number, a string, a boolean, an array) parses and has no such
      property; it is the body whose field is absent. */
  datatype Event<B> = Event(httpMethod: string, body: Option<B>)

  /** A response body. `ErrorJson(None)` and `TextJson(None)` stand for
      `JSON.stringify` of an object whose only property is undefined, i.e. `{}`. */
  datatype Body =
    | Empty
    | Plain(message: string)
    | ErrorJson(error: Option<string>)
    | TextJson(text: Option<string>)

  datatype Response = Response(statusCode: int, headers: map<string, string>, body: Body)

  /** The fixed cross-origin headers attached to every response. */
  const CorsHeaders: map<string, string> :=
    map["Access-Control-Allow-Origin" := "*",
        "Access-Control-Allow-Headers" := "Content-Type",
        "Content-Type" := "application/json"]

  /** JavaScript truthiness of an optional string: present and non-empty. */
  predicate Truthy(s: Option<string>) {
    s.Some? && s.value != ""
  }

  const Preflight := Response(204, CorsHeaders, Empty)
  const MethodNotAllowed := Response(405, CorsHeaders, Plain("Método no permitido. Usa POST."))
  const MissingKey := Response(500, CorsHeaders, ErrorJson(Some("Clave de API no configurada en el servidor.")))
  const InternalError := Response(500, CorsHeaders, ErrorJson(Some("Error interno del servidor (Proxy).")))

  /** The checks made before the body is parsed, in the order the handlers
      make them: the CORS preflight, the method, the API key. `None` means
      the request goes on to the body. */
  function Gate(httpMethod: string, apiKey: Option<string>): (r: Option<Response>)
    ensures httpMethod == "OPTIONS" ==> r == Some(Preflight)
    ensures httpMethod != "OPTIONS" && httpMethod != "POST" ==> r == Some(MethodNotAllowed)
    ensures httpMethod == "POST" && !Truthy(apiKey) ==> r == Some(MissingKey)
    ensures r == None <==> httpMethod == "POST" && Truthy(apiKey)
  {
    if httpMethod == "OPTIONS" then Some(Preflight)
    else if httpMethod != "POST" then Some(MethodNotAllowed)
    else if !Truthy(apiKey) then Some(MissingKey)
    else None
  }
}
