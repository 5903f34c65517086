/** The request handler around the message: the method check, the
    configuration check, reading the body, the log copy, the message and the
    relay of the chat API's reply. The HTTP request, the environment, the body
    parser and the outbound call are inputs; the handler's answer, the log
    copy and the outbound request are outputs. */
module Handler {
  import opened JsObjects
  import opened Masking
  import opened MessageText

  const TokenName: string := "TELEGRAM_TOKEN"
  const ChatIdName: string := "TELEGRAM_CHAT_ID"

  /** The names of the configuration values that are missing (not truthy),
      the token first. */
  function MissingNames(token: Value, chatId: Value): (r: seq<string>)
    ensures TokenName in r <==> !Truthy(token)
    ensures ChatIdName in r <==> !Truthy(chatId)
    ensures r == [] <==> Truthy(token) && Truthy(chatId)
    ensures NoDuplicates(r)
    ensures forall i :: 0 <= i < |r| ==> r[i] == TokenName || r[i] == ChatIdName
    ensures |r| == 2 ==> r[0] == TokenName && r[1] == ChatIdName
  {
    (if !Truthy(token) then [TokenName] else []) + (if !Truthy(chatId) then [ChatIdName] else [])
  }

  /** The `missing` array, built by at most two pushes. */
  method CollectMissing(token: Value, chatId: Value) returns (missing: seq<string>)
    ensures missing == MissingNames(token, chatId)
  {
    missing := [];
    if !Truthy(token) {
      missing := missing + [TokenName];
    }
    if !Truthy(chatId) {
      missing := missing + [ChatIdName];
    }
  }

  /** `xs.join(sep)`: the elements with sep between neighbours. */
  function Join(xs: seq<string>, sep: string): string {
    if xs == [] then ""
    else if |xs| == 1 then xs[0]
    else Join(xs[..|xs| - 1], sep) + sep + xs[|xs| - 1]
  }

  /** The text of the configuration error. */
  function MissingMessage(missing: seq<string>): string {
    "Missing env vars: " + Join(missing, ", ")
  }

  /** Joining two elements puts the separator between them. */
  lemma JoinTwo(a: string, b: string, sep: string)
    ensures Join([a, b], sep) == a + sep + b
  {
    assert [a, b][..1] == [a];
  }

  /** The configuration error names exactly the missing values, the token
      before the chat id, separated by a comma and a space. */
  lemma MissingMessageNamesExactlyTheMissing(token: Value, chatId: Value)
    ensures !Truthy(token) && !Truthy(chatId) ==>
              MissingMessage(MissingNames(token, chatId)) == "Missing env vars: " + TokenName + ", " + ChatIdName
    ensures !Truthy(token) && Truthy(chatId) ==>
              MissingMessage(MissingNames(token, chatId)) == "Missing env vars: " + TokenName
    ensures Truthy(token) && !Truthy(chatId) ==>
              MissingMessage(MissingNames(token, chatId)) == "Missing env vars: " + ChatIdName
    ensures Truthy(token) && Truthy(chatId) ==> MissingNames(token, chatId) == []
  {
    if !Truthy(token) && !Truthy(chatId) {
      assert MissingNames(token, chatId) == [TokenName, ChatIdName];
      JoinTwo(TokenName, ChatIdName, ", ");
      AppendAssoc("Missing env vars: ", TokenName + ", ", ChatIdName);
      AppendAssoc("Missing env vars: ", TokenName, ", ");
    }
  }

  /** The request body as the handler receives it: absent (or another falsy
      non-text value), text together with what the JSON parser makes of it
      (None when it throws), or an already parsed object. */
  datatype Body =
    | Absent
    | Text(raw: string, parsed: Option<Payload>)
    | Structured(payload: Payload)

  /** The payload read from the body, or None for "Invalid JSON". Empty text
      is read as `'{}'`, an absent body as `{}`. */
  function ReadPayload(b: Body): (r: Option<Payload>)
    ensures r == None <==> b.Text? && b.raw != "" && b.parsed == None
    ensures b.Absent? || (b.Text? && b.raw == "") ==> r == Some(Empty)
    ensures b.Text? && b.raw != "" ==> r == b.parsed
    ensures b.Structured? ==> r == Some(b.payload)
  {
    match b
    case Absent => Some(Empty)
    case Text(raw, parsed) => if raw == "" then Some(Empty) else parsed
    case Structured(p) => Some(p)
  }

  /** What the outbound call to the chat API came to: the call itself failed
      with a message, or the API replied, with or without success, with a body
      text that the JSON parser accepts or not. */
  datatype Delivery =
    | FetchFailed(error: string)
    | Replied(ok: bool, bodyText: string, isJson: bool)

  /** The handler's answer: status, body text, and whether the body is sent
      as JSON. With `asJson` the caller receives the body parsed and
      serialised again (`res.json(JSON.parse(body))`), which this model does
      not compute. */
  datatype Response = Response(status: nat, body: string, asJson: bool)

  /** The relay of the chat API's reply to the caller. */
  function Relay(d: Delivery): (r: Response)
    ensures r.status == 500 <==> d.FetchFailed?
    ensures r.status == 502 <==> d.Replied? && !d.ok
    ensures r.status == 200 <==> d.Replied? && d.ok
    ensures d.FetchFailed? ==> r.body == "Fetch error: " + d.error && !r.asJson
    ensures d.Replied? && !d.ok ==> r.body == "Telegram error: " + d.bodyText && !r.asJson
    ensures d.Replied? && d.ok ==> r.body == d.bodyText && r.asJson == d.isJson
  {
    match d
    case FetchFailed(e) => Response(500, "Fetch error: " + e, false)
    case Replied(ok, bodyText, isJson) =>
      if !ok then Response(502, "Telegram error: " + bodyText, false)
      else Response(200, bodyText, isJson)
  }

  /** The JSON body of the outbound `sendMessage` call and its address. */
  datatype Outbound = Outbound(url: string, chatId: string, text: string, parseMode: string, disablePreview: bool)

  function SendMessageUrl(token: string): string {
    "https://api.telegram.org/bot" + token + "/sendMessage"
  }

  /** Everything one call of the handler produces: its answer, the log copy
      it wrote (if it got that far) and the outbound request it made (if any). */
  datatype Outcome = Outcome(response: Response, logged: Option<Payload>, request: Option<Outbound>)

  /** One call of the handler. The reply of the chat API is an input: it is
      what the API answered to the request in the outcome. */
  method Handle(httpMethod: string, token: Value, chatId: Value, body: Body, delivery: Delivery)
    returns (out: Outcome)
    ensures httpMethod != "POST" ==> out == Outcome(Response(405, "Method not allowed", false), None, None)
    ensures httpMethod == "POST" && MissingNames(token, chatId) != [] ==>
              out == Outcome(Response(500, MissingMessage(MissingNames(token, chatId)), false), None, None)
    ensures httpMethod == "POST" && MissingNames(token, chatId) == [] && ReadPayload(body) == None ==>
              out == Outcome(Response(400, "Invalid JSON", false), None, None)
    ensures httpMethod == "POST" && MissingNames(token, chatId) == [] && ReadPayload(body).Some? ==>
              var p := ReadPayload(body).value;
              && out.logged == Some(MaskedCopy(p))
              && out.request == Some(Outbound(SendMessageUrl(token.value), chatId.value, Message(p), "HTML", true))
              && out.response == Relay(delivery)
  {
    if httpMethod != "POST" {
      return Outcome(Response(405, "Method not allowed", false), None, None);
    }
    if !Truthy(token) || !Truthy(chatId) {
      var missing := CollectMissing(token, chatId);
      return Outcome(Response(500, "Missing env vars: " + Join(missing, ", "), false), None, None);
    }
    var payload: Payload;
    match ReadPayload(body) {
      case None =>
        return Outcome(Response(400, "Invalid JSON", false), None, None);
      case Some(p) =>
        payload := p;
    }
    var logged := MaskedLogCopy(payload);
    var text := BuildMessage(payload);
    var request := Outbound(SendMessageUrl(token.value), chatId.value, text, "HTML", true);
    return Outcome(Relay(delivery), Some(logged), Some(request));
  }
}
