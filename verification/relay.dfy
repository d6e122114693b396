/**
 * The serverless contact relay: a chain of early returns that maps one HTTP
 * request to a status code and a JSON body, and that hands at most one
 * message to the email provider.
 *
 * `JSON.parse` (with the destructuring of its result) and the provider's
 * `send` are not modelled; they are parameters of the handler, and the
 * handler's result records the message it handed to `send`, if any.
 */
module Relay {
  import opened Wrappers
  import opened Text

  /** The Netlify event: the HTTP method and the raw body (null is `None`). */
  datatype Request = Request(httpMethod: string, body: Option<string>)

  /** The fields destructured from the parsed body; an absent or null field is `None`. */
  datatype Submission = Submission(name: Option<string>, email: Option<string>, message: Option<string>)

  /** What `JSON.parse(body)` followed by the destructuring yields: the fields, or the thrown error's message. */
  datatype ParseOutcome = Parsed(fields: Submission) | ParseThrew(message: string)

  /**
   * What the provider's `send` yields: acceptance, an error it reports in
   * `response.error`, or an exception (whose message is the detail text).
   */
  datatype SendOutcome = Delivered | ProviderError(message: string) | SendThrew(detail: string)

  /** The message handed to the provider. */
  datatype OutgoingEmail = OutgoingEmail(from: string, to: string, replyTo: string, subject: string, text: string)

  /** The JSON object of the response, before `JSON.stringify`. */
  datatype ResponseBody = OkBody | ErrorBody(error: string, details: Option<string>)

  datatype Response = Response(statusCode: int, body: ResponseBody)

  /** The handler's response together with the message it sent, if it sent one. */
  datatype Invocation = Invocation(response: Response, sent: Option<OutgoingEmail>)

  const Sender := "Portafolio <onboarding@resend.dev>"
  const Recipient := "garancibiacl@gmail.com"
  const SubjectPrefix := "Nuevo mensaje de "
  const NameLabel := "Nombre: "
  const EmailLabel := "\nEmail: "
  const MessageLabel := "\n\nMensaje:\n"

  const MethodNotAllowed := Response(405, ErrorBody("Method Not Allowed", None))
  const BodyRequired := Response(400, ErrorBody("Body is required", None))
  const MissingKey := Response(500, ErrorBody("Missing RESEND_API_KEY environment variable", None))
  const MissingFields := Response(400, ErrorBody("Missing fields", None))
  const SendOk := Response(200, OkBody)

  function SendFailed(detail: string): Response
  {
    Response(500, ErrorBody("Failed to send email", Some(detail)))
  }

  function Subject(name: string): string
  {
    SubjectPrefix + name
  }

  function BodyText(name: string, email: string, message: string): string
  {
    NameLabel + name + EmailLabel + email + MessageLabel + message
  }

  /** The message built from a submission whose three fields passed the check. */
  function Compose(name: string, email: string, message: string): (m: OutgoingEmail)
    ensures m.from == Sender && m.to == Recipient
    ensures m.replyTo == email
    ensures StartsWith(m.subject, SubjectPrefix) && m.subject[|SubjectPrefix|..] == name
    ensures ReadBodyText(m.text) == Some((name, email, message)) <==> '\n' !in name && '\n' !in email
  {
    ReadBodyTextInverts(name, email, message);
    OutgoingEmail(Sender, Recipient, email, Subject(name), BodyText(name, email, message))
  }

  /** `handler`: the checks in the order the function performs them. */
  function Handle(req: Request, apiKey: Option<string>, parse: string -> ParseOutcome,
                  send: OutgoingEmail -> SendOutcome): (r: Invocation)
    ensures r.response.statusCode in {200, 400, 405, 500}
    ensures r.sent.Some? <==>
      && req.httpMethod == "POST" && Truthy(req.body) && Truthy(apiKey)
      && parse(req.body.value).Parsed?
      && var f := parse(req.body.value).fields;
         Truthy(f.name) && Truthy(f.email) && Truthy(f.message)
    ensures r.sent.Some? ==>
      var f := parse(req.body.value).fields;
      r.sent.value == Compose(f.name.value, f.email.value, f.message.value)
    ensures r.response.statusCode == 200 <==> r.sent.Some? && send(r.sent.value) == Delivered
    ensures r.response.statusCode == 200 ==> r.response.body == OkBody
  {
    if req.httpMethod != "POST" then
      Invocation(MethodNotAllowed, None)
    else if !Truthy(req.body) then
      Invocation(BodyRequired, None)
    else if !Truthy(apiKey) then
      Invocation(MissingKey, None)
    else
      match parse(req.body.value)
      case ParseThrew(msg) => Invocation(SendFailed(msg), None)
      case Parsed(f) =>
        if !Truthy(f.name) || !Truthy(f.email) || !Truthy(f.message) then
          Invocation(MissingFields, None)
        else
          var email := Compose(f.name.value, f.email.value, f.message.value);
          var response :=
            match send(email)
            case Delivered => SendOk
            case ProviderError(msg) => SendFailed(msg)
            case SendThrew(detail) => SendFailed(detail);
          Invocation(response, Some(email))
  }

  /** Any method other than POST gets 405 and nothing is sent. */
  lemma NonPostRejected(req: Request, apiKey: Option<string>, parse: string -> ParseOutcome,
                        send: OutgoingEmail -> SendOutcome)
    requires req.httpMethod != "POST"
    ensures Handle(req, apiKey, parse, send) == Invocation(MethodNotAllowed, None)
  {
  }

  /** A POST whose body is null or empty gets 400 and nothing is sent. */
  lemma EmptyBodyRejected(req: Request, apiKey: Option<string>, parse: string -> ParseOutcome,
                          send: OutgoingEmail -> SendOutcome)
    requires req.httpMethod == "POST" && (req.body == None || req.body == Some(""))
    ensures Handle(req, apiKey, parse, send) == Invocation(BodyRequired, None)
  {
  }

  /**
   * A missing or empty API key gets 500 and nothing is sent; the key is
   * checked before the body is parsed, so this holds for a malformed body too.
   */
  lemma MissingKeyRejected(req: Request, apiKey: Option<string>, parse: string -> ParseOutcome,
                           send: OutgoingEmail -> SendOutcome)
    requires req.httpMethod == "POST" && Truthy(req.body)
    requires apiKey == None || apiKey == Some("")
    ensures Handle(req, apiKey, parse, send) == Invocation(MissingKey, None)
  {
  }

  /** A body that fails to parse gets 500 with the parser's message, not 400. */
  lemma MalformedBodyFails(req: Request, apiKey: Option<string>, parse: string -> ParseOutcome,
                           send: OutgoingEmail -> SendOutcome)
    requires req.httpMethod == "POST" && Truthy(req.body) && Truthy(apiKey)
    requires parse(req.body.value).ParseThrew?
    ensures Handle(req, apiKey, parse, send)
            == Invocation(SendFailed(parse(req.body.value).message), None)
  {
  }

  /** A parsed body with an absent or empty field gets 400 and nothing is sent. */
  lemma MissingFieldRejected(req: Request, apiKey: Option<string>, parse: string -> ParseOutcome,
                             send: OutgoingEmail -> SendOutcome)
    requires req.httpMethod == "POST" && Truthy(req.body) && Truthy(apiKey)
    requires parse(req.body.value).Parsed?
    requires var f := parse(req.body.value).fields;
             !Truthy(f.name) || !Truthy(f.email) || !Truthy(f.message)
    ensures Handle(req, apiKey, parse, send) == Invocation(MissingFields, None)
  {
  }

  /** Once every check has passed, the outcome of the one send decides the response. */
  lemma SendFailureReported(req: Request, apiKey: Option<string>, parse: string -> ParseOutcome,
                            send: OutgoingEmail -> SendOutcome)
    requires req.httpMethod == "POST" && Truthy(req.body) && Truthy(apiKey)
    requires parse(req.body.value).Parsed?
    requires var f := parse(req.body.value).fields;
             Truthy(f.name) && Truthy(f.email) && Truthy(f.message)
    ensures var r := Handle(req, apiKey, parse, send);
            && r.sent.Some?
            && match send(r.sent.value)
               case Delivered => r.response == SendOk
               case ProviderError(msg) => r.response == SendFailed(msg)
               case SendThrew(detail) => r.response == SendFailed(detail)
  {
  }

  // ---------------------------------------------------------------------------
  // Reading a body text back

  /** Splits `s` before its first line break (the whole of `s` when it has none). */
  function TakeLine(s: string): (string, string)
  {
    var i := IndexOf(s, '\n');
    (s[..i], s[i..])
  }

  lemma TakeLineOf(a: string, b: string)
    requires b != [] && b[0] == '\n'
    ensures '\n' !in a ==> TakeLine(a + b) == (a, b)
    ensures '\n' in a ==> |TakeLine(a + b).0| < |a|
  {
    var i := IndexOf(a + b, '\n');
    if '\n' in a {
      var k := IndexOf(a, '\n');
      assert (a + b)[k] == '\n';
      assert (a + b)[..k + 1][k] == '\n';
    } else {
      assert (a + b)[|a|] == '\n';
      assert (a + b)[..|a|] == a;
      assert (a + b)[..|a| + 1][|a|] == '\n';
      assert (a + b)[|a|..] == b;
    }
  }

  /** Splits a body text into name, email and message; the partner of `BodyText`. */
  function ReadBodyText(t: string): Option<(string, string, string)>
  {
    if !StartsWith(t, NameLabel) then None
    else
      var (name, rest) := TakeLine(t[|NameLabel|..]);
      if !StartsWith(rest, EmailLabel) then None
      else
        var (email, rest') := TakeLine(rest[|EmailLabel|..]);
        if !StartsWith(rest', MessageLabel) then None
        else Some((name, email, rest'[|MessageLabel|..]))
  }

  lemma {:induction false} BodyTextAssoc(name: string, email: string, message: string)
    ensures BodyText(name, email, message) == NameLabel + (name + (EmailLabel + (email + (MessageLabel + message))))
  {
  }

  /** The name before the first line break and the email before the next one can be read back. */
  lemma ReadBodyTextInverts(name: string, email: string, message: string)
    ensures ReadBodyText(BodyText(name, email, message)) == Some((name, email, message))
            <==> '\n' !in name && '\n' !in email
  {
    var t := BodyText(name, email, message);
    var tail2 := MessageLabel + message;
    var tail := EmailLabel + (email + tail2);
    BodyTextAssoc(name, email, message);
    assert StartsWith(t, NameLabel);
    assert t[|NameLabel|..] == name + tail;
    TakeLineOf(name, tail);
    if '\n' !in name {
      assert StartsWith(tail, EmailLabel);
      assert tail[|EmailLabel|..] == email + tail2;
      TakeLineOf(email, tail2);
      if '\n' !in email {
        assert StartsWith(tail2, MessageLabel);
        assert tail2[|MessageLabel|..] == message;
      }
    }
  }
}
