/** The upstream call of the service (`makeOpenRouterCall`) with the network
    abstracted: the transport is a function from the request the service
    would send to the reply it receives, and the call is the fail-soft
    decision procedure that turns that reply into the returned text. */
module OpenRouter {
  import opened AITypes
  import opened Text
  import opened Catalogue

  /** Returned, without any request, when no API key is configured. */
  const SetKeyPrompt: string :=
    "Please set your OpenRouter API key in Settings:\n"
    + "File \U{2192} Preferences \U{2192} Settings, search **optqo ai**, set **OpenRouter API key**.\n"
    + "Get a key: https://openrouter.ai/keys"

  const NetworkError: string := "Network error. Please check your connection."
  const InvalidKeyMessage: string := "Invalid API key."
  const NoCreditsMessage: string := "Insufficient credits on OpenRouter."
  const RateLimitedMessage: string := "Rate limit exceeded. Try again shortly."
  const MalformedMessage: string := "Unexpected response format from OpenRouter"

  const DefaultTemperature: real := 0.7
  const DefaultMaxTokens: real := 2000.0

  /** What is sent: the bearer token of the Authorization header and the
      JSON body (model, messages, temperature, max_tokens). */
  datatype Request = Request(
    bearerToken: string,
    model: string,
    messages: seq<Message>,
    temperature: real,
    maxTokens: real)

  /** The `error` member of an error body: an object (whose `message` may be
      empty or missing, here "") or a plain string. */
  datatype ErrorField = ErrorObject(message: string) | ErrorText(text: string)

  /** A response body: parsed JSON with the two members the service reads
      (`error` and `choices[0].message.content`), or text that is not JSON
      (parsing it throws a SyntaxError with the given message). */
  datatype Body = Json(error: Option<ErrorField>, content: Option<string>) | NotJson(syntaxError: string)

  /** What the transport answers: an exception thrown by `fetch` itself (its
      name and message), or an HTTP response. */
  datatype Reply =
    | TransportFailure(name: string, message: string)
    | Http(status: nat, statusText: string, body: Body)

  /** The result of the `try` block: text returned, or an error thrown. */
  datatype Outcome = Returned(text: string) | Thrown(name: string, message: string)

  /** The request for a message list; a falsy model falls back to the
      default, an absent temperature or token limit to 0.7 or 2000. */
  function RequestBody(apiKey: string, config: Config, messages: seq<Message>): (q: Request)
    ensures q.bearerToken == apiKey && q.messages == messages
    ensures q.model != ""
    ensures Truthy(config.model) ==> q.model == config.model.value
    ensures !Truthy(config.model) ==> q.model == DefaultModel
    ensures config.temperature.Some? ==> q.temperature == config.temperature.value
    ensures config.maxTokens.Some? ==> q.maxTokens == config.maxTokens.value
  {
    Request(apiKey, OrElse(config.model, DefaultModel), messages,
      Coalesce(config.temperature, DefaultTemperature), Coalesce(config.maxTokens, DefaultMaxTokens))
  }

  /** The message thrown for a truthy `err.error`: its `message`, or else the
      error stringified; None when `err.error` is falsy or the body was not
      JSON (the source then reads it as `{}`). */
  function UpstreamError(body: Body): (m: Option<string>)
    ensures body.NotJson? || body.error.None? ==> m.None?
    ensures m.Some? ==> m.value != ""
    // an error object gives its message, or "[object Object]" when that is empty
    ensures body.Json? && body.error.Some? && body.error.value.ErrorObject? ==>
      m == Some(if body.error.value.message != "" then body.error.value.message else "[object Object]")
    // an error string is used when truthy; the falsy "" falls through to the status line
    ensures body.Json? && body.error.Some? && body.error.value.ErrorText? ==>
      (m.Some? <==> body.error.value.text != "") && (m.Some? ==> m.value == body.error.value.text)
  {
    match body
    case NotJson(_) => None
    case Json(error, _) =>
      match error
      case None => None
      case Some(ErrorObject(m)) => Some(if m != "" then m else "[object Object]")
      case Some(ErrorText(t)) => if t != "" then Some(t) else None
  }

  predicate IsOk(status: nat)
  {
    200 <= status <= 299
  }

  /** The `try` block once the reply is known. */
  function Attempt(reply: Reply): (o: Outcome)
    // text is returned only for a 2xx JSON reply with truthy content, and it is that content
    ensures o.Returned? <==> reply.Http? && IsOk(reply.status) && reply.body.Json? && Truthy(reply.body.content)
    ensures o.Returned? ==> o.text == reply.body.content.value
    // every error the service throws itself is an Error with a non-empty message
    ensures o.Thrown? && reply.Http? && !(IsOk(reply.status) && reply.body.NotJson?) ==>
      o.name == "Error" && o.message != ""
  {
    match reply
    case TransportFailure(name, message) => Thrown(name, message)
    case Http(status, statusText, body) =>
      if !IsOk(status) then
        if status == 401 then Thrown("Error", InvalidKeyMessage)
        else if status == 402 then Thrown("Error", NoCreditsMessage)
        else if status == 429 then Thrown("Error", RateLimitedMessage)
        else match UpstreamError(body)
          case Some(m) => Thrown("Error", m)
          case None => Thrown("Error", "OpenRouter API error: " + NatToString(status) + " " + statusText)
      else match body
        case NotJson(m) => Thrown("SyntaxError", m)
        case Json(_, content) =>
          if Truthy(content) then Returned(content.value) else Thrown("Error", MalformedMessage)
  }

  /** `e?.message || String(e)`: an error with an empty message stringifies to its name. */
  function ThrownText(name: string, message: string): string
  {
    if message != "" then message else name
  }

  /** The `catch` clause: a message mentioning "fetch" becomes the network
      error, anything else is reported as "Error: <text>". */
  function Caught(text: string): (r: string)
    ensures r == NetworkError || (|r| >= 7 && r[..7] == "Error: " && r[7..] == text)
  {
    if Includes(text, "fetch") then NetworkError else "Error: " + text
  }

  /** The text a reply resolves to once an API key is present. */
  function Classify(reply: Reply): (r: string)
    ensures r != ""
  {
    match Attempt(reply)
    case Returned(text) => text
    case Thrown(name, message) => Caught(ThrownText(name, message))
  }

  /** `makeOpenRouterCall(messages)` with the given key and configuration. It
      always resolves to a non-empty text, and without a key it returns the
      instructional prompt whatever the transport would have answered, that
      is, without a request. */
  function Call(apiKey: string, config: Config, messages: seq<Message>, transport: Request -> Reply): (r: string)
    ensures r != ""
    ensures apiKey == "" ==> r == SetKeyPrompt
    ensures apiKey != "" ==> r == Classify(transport(RequestBody(apiKey, config, messages)))
  {
    if apiKey == "" then SetKeyPrompt
    else Classify(transport(RequestBody(apiKey, config, messages)))
  }

  /** The catch clause tells the two kinds of failure apart exactly by
      whether the message mentions "fetch". */
  lemma CaughtKinds(text: string)
    ensures Caught(text) == NetworkError <==> Includes(text, "fetch")
    ensures !Includes(text, "fetch") ==> Caught(text) == "Error: " + text
  {
    if !Includes(text, "fetch") {
      assert Caught(text)[0] == 'E' != NetworkError[0];
    }
  }

  /** A failure thrown by the transport itself becomes the network error
      exactly when its text mentions "fetch", and "Error: <text>" otherwise. */
  lemma TransportFailureClassified(name: string, message: string)
    ensures Classify(TransportFailure(name, message)) == NetworkError
      <==> Includes(ThrownText(name, message), "fetch")
    ensures !Includes(ThrownText(name, message), "fetch") ==>
      Classify(TransportFailure(name, message)) == "Error: " + ThrownText(name, message)
  {
    CaughtKinds(ThrownText(name, message));
  }

  /** HTTP 401, 402 and 429 map to their fixed messages whatever the body
      says, including a body that carries its own error. */
  lemma StatusTakesPrecedence(statusText: string, body: Body)
    ensures Classify(Http(401, statusText, body)) == "Error: " + InvalidKeyMessage
    ensures Classify(Http(402, statusText, body)) == "Error: " + NoCreditsMessage
    ensures Classify(Http(429, statusText, body)) == "Error: " + RateLimitedMessage
  {
    NoFetchWithoutFe(InvalidKeyMessage);
    NoFetchWithoutFe(NoCreditsMessage);
    NoFetchWithoutFe(RateLimitedMessage);
    assert Attempt(Http(401, statusText, body)) == Thrown("Error", InvalidKeyMessage);
    assert Attempt(Http(402, statusText, body)) == Thrown("Error", NoCreditsMessage);
    assert Attempt(Http(429, statusText, body)) == Thrown("Error", RateLimitedMessage);
  }

  /** Any other failing status reports the body's own error when it has a
      truthy one, and otherwise the status line. */
  lemma HttpErrorReported(status: nat, statusText: string, body: Body)
    requires !IsOk(status) && status != 401 && status != 402 && status != 429
    ensures UpstreamError(body).Some? ==>
      Classify(Http(status, statusText, body)) == Caught(UpstreamError(body).value)
    ensures UpstreamError(body).None? ==>
      Classify(Http(status, statusText, body))
        == Caught("OpenRouter API error: " + NatToString(status) + " " + statusText)
  {
  }

  /** A successful status returns non-empty content unchanged; absent or
      empty content, or a body that is not JSON, is reported as an error. */
  lemma SuccessContent(status: nat, statusText: string, body: Body)
    requires IsOk(status)
    ensures body.Json? && Truthy(body.content) ==> Classify(Http(status, statusText, body)) == body.content.value
    ensures body.Json? && !Truthy(body.content) ==>
      Classify(Http(status, statusText, body)) == "Error: " + MalformedMessage
    ensures body.NotJson? ==>
      Classify(Http(status, statusText, body)) == Caught(ThrownText("SyntaxError", body.syntaxError))
  {
    NoFetchWithoutFe(MalformedMessage);
  }

  /** A browser's failed `fetch` ("TypeError: Failed to fetch") is reported
      as the network error. */
  lemma FailedFetchIsNetworkError()
    ensures Classify(TransportFailure("TypeError", "Failed to fetch")) == NetworkError
  {
    IncludesSpliced("Failed to ", "fetch", "");
    assert "Failed to " + "fetch" + "" == "Failed to fetch";
  }

  /** Fail-soft: every call resolves to exactly one of the instructional
      prompt, the network error, a text starting "Error: ", or the non-empty
      content of a successful reply. */
  lemma FailSoft(apiKey: string, config: Config, messages: seq<Message>, transport: Request -> Reply)
    ensures var r := Call(apiKey, config, messages, transport);
      var reply := transport(RequestBody(apiKey, config, messages));
      || r == SetKeyPrompt
      || r == NetworkError
      || (|r| >= 7 && r[..7] == "Error: ")
      || (apiKey != "" && reply.Http? && IsOk(reply.status) && reply.body.Json?
          && Truthy(reply.body.content) && r == reply.body.content.value)
  {
  }
}
