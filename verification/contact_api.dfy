/**
 * The contact endpoint (src/app/api/contact/route.ts): how `POST` turns a
 * request body and the server's environment into a response and, on the
 * way, the message it hands to the mail transport; and the CORS answer of
 * `OPTIONS`.
 *
 * Reading the request body, the environment and the SMTP send are outside
 * the model: the parsed body and the environment are parameters, and the
 * send is an oracle answer (`None` for delivered, `Some(m)` for an error with
 * message `m`).
 */
module ContactApi {
  import opened Strings
  import opened EmailFormat

  /** The JSON body: each field absent (`None`) or a string. */
  datatype ContactData = ContactData(name: Option<string>, email: Option<string>, message: Option<string>)

  /** `request.json()`: the parsed body, or the message of the parse error it throws. */
  datatype RequestBody = Json(data: ContactData) | Malformed(reason: string)

  /** The environment variables the handler reads; `None` when unset. */
  datatype Env = Env(
    contactEmail: Option<string>,
    smtpHost: Option<string>,
    smtpPort: Option<string>,
    smtpUser: Option<string>,
    smtpPass: Option<string>)

  datatype Transport = Transport(host: string, port: Option<int>, secure: bool, user: string, pass: string)

  datatype Mail = Mail(from: string, to: string, replyTo: string, subject: string, text: string, html: string)

  /** What the handler passes to `createTransport` and `sendMail`. */
  datatype Delivery = Delivery(transport: Transport, mail: Mail)

  /** The JSON bodies the endpoint answers with. */
  datatype Body =
    | ErrorJson(error: string)
    | FailureJson(error: string, message: string)
    | SuccessJson(success: bool, message: string)
    | NoBody

  datatype Response = Response(status: int, body: Body, headers: seq<(string, string)>)

  /** The outcome of one `POST`: the response, and the delivery attempted on the way, if any. */
  datatype PostResult = PostResult(response: Response, delivery: Option<Delivery>)

  const MissingFields := "Missing required fields: name, email, and message are required"
  const InvalidEmail := "Invalid email format"
  const NotConfigured := "Email service not configured"
  const InternalError := "Internal server error"
  const Received := "Request received successfully"
  const DefaultRecipient := "lerdi890@gmail.com"
  const DefaultPort := 587
  const SecurePort := 465

  /** A JavaScript value is truthy: present and, for a string, non-empty. */
  predicate Truthy(v: Option<string>)
  {
    v.Some? && v.value != ""
  }

  /** `a || b` on two optional strings. */
  function Or(a: Option<string>, b: string): (r: string)
    ensures Truthy(a) ==> r == a.value
    ensures !Truthy(a) ==> r == b
  {
    if Truthy(a) then a.value else b
  }

  // ---------------------------------------------------------------------------
  // The message.

  const HtmlOpen := "\n      <html>\n        <body style=\"font-family: Arial, sans-serif; line-height: 1.6; color: #333;\">\n          <div style=\"max-width: 600px; margin: 0 auto; padding: 20px;\">\n            <h2 style=\"color: #2563eb;\">New contact request received</h2>\n            <p><strong>From:</strong> "
  const HtmlMailto := "</p>\n            <p><strong>Email:</strong> <a href=\"mailto:"
  const HtmlLink := "\" style=\"color: #2563eb;\">"
  const HtmlMessage := "</a></p>\n            <p><strong>Message:</strong></p>\n            <div style=\"background: #f3f4f6; padding: 15px; border-radius: 5px; margin: 15px 0;\">\n              <p style=\"white-space: pre-wrap; margin: 0;\">"
  const HtmlClose := "</p>\n            </div>\n            <hr style=\"border: none; border-top: 1px solid #e5e7eb; margin: 20px 0;\">\n            <p style=\"color: #6b7280; font-size: 12px;\">This message was sent from your portfolio contact form.</p>\n          </div>\n        </body>\n      </html>\n    "

  const TextOpen := "New contact request received:\n\nFrom: "
  const TextClose := "\n\n---\nThis message was sent from your portfolio contact form."

  function Subject(name: string): string
  {
    "New Contact Request from " + name
  }

  /** The HTML body: the message's line breaks become `<br>`. */
  function HtmlBody(name: string, email: string, message: string): string
  {
    HtmlOpen + name + HtmlMailto + email + HtmlLink + email + HtmlMessage
    + ReplaceAll(message, '\n', "<br>") + HtmlClose
  }

  /** The plain-text template between its backquotes, before `.trim()`. */
  function TextTemplate(name: string, email: string, message: string): string
  {
    "\n" + TextOpen + name + "\nEmail: " + email + "\n\nMessage:\n" + message + TextClose + "\n    "
  }

  function TextBody(name: string, email: string, message: string): string
  {
    Trim(TextTemplate(name, email, message))
  }

  /** Trimming the template drops only its own first and last lines: the message stays verbatim. */
  lemma TextBodyCarriesMessage(name: string, email: string, message: string)
    ensures TextBody(name, email, message)
      == TextOpen + name + "\nEmail: " + email + "\n\nMessage:\n" + message + TextClose
  {
    var core := TextOpen + name + "\nEmail: " + email + "\n\nMessage:\n" + message + TextClose;
    assert core[0] == 'N';
    assert core[|core| - 1] == '.';
    assert TextTemplate(name, email, message) == "\n" + core + "\n    ";
    TrimWrapped("\n", core, "\n    ");
  }

  /** No line break of the message survives into the HTML body. */
  lemma {:induction false} LineBreaksReplaced(message: string)
    ensures '\n' !in ReplaceAll(message, '\n', "<br>")
  {
    if message != [] {
      LineBreaksReplaced(message[1..]);
    }
  }

  /** The port: `SMTP_PORT` through `parseInt` when it is set and non-empty, 587 otherwise. */
  function SmtpPort(env: Env): (r: Option<int>)
    ensures !Truthy(env.smtpPort) ==> r == Some(DefaultPort)
  {
    if Truthy(env.smtpPort) then ParseInt(env.smtpPort.value) else Some(DefaultPort)
  }

  /** The SMTP host, user and password are all set and non-empty. */
  predicate Configured(env: Env)
  {
    Truthy(env.smtpHost) && Truthy(env.smtpUser) && Truthy(env.smtpPass)
  }

  /** The transport and the message, for a body that passed validation on a configured server. */
  function Prepare(name: string, email: string, message: string, env: Env): (d: Delivery)
    requires Configured(env)
    ensures d.transport.secure <==> SmtpPort(env) == Some(SecurePort)
    ensures d.mail.to == Or(env.contactEmail, DefaultRecipient)
    ensures d.mail.subject == Subject(name)
  {
    var port := SmtpPort(env);
    Delivery(
      Transport(env.smtpHost.value, port, port == Some(SecurePort), env.smtpUser.value, env.smtpPass.value),
      Mail("\"Portfolio Contact Form\" <" + env.smtpUser.value + ">",
        Or(env.contactEmail, DefaultRecipient),
        name + " <" + email + ">",
        Subject(name),
        TextBody(name, email, message),
        HtmlBody(name, email, message)))
  }

  // ---------------------------------------------------------------------------
  // The handlers.

  function Reply(status: int, body: Body): Response
  {
    Response(status, body, [])
  }

  /** The presence check: every field truthy (a whitespace-only field passes it). */
  predicate AllPresent(data: ContactData)
  {
    Truthy(data.name) && Truthy(data.email) && Truthy(data.message)
  }

  /** `POST /api/contact`. */
  function Post(request: RequestBody, env: Env, sendError: Option<string>): (r: PostResult)
    ensures r.response.status in {200, 400, 500}
    ensures r.response.status == 200 <==> r.delivery.Some? && sendError.None?
  {
    match request
    case Malformed(reason) => PostResult(Reply(500, FailureJson(InternalError, reason)), None)
    case Json(data) =>
      if !AllPresent(data) then PostResult(Reply(400, ErrorJson(MissingFields)), None)
      else if !ValidEmail(data.email.value) then PostResult(Reply(400, ErrorJson(InvalidEmail)), None)
      else if !Configured(env) then PostResult(Reply(500, FailureJson(InternalError, NotConfigured)), None)
      else
        var delivery := Prepare(data.name.value, data.email.value, data.message.value, env);
        match sendError
        case Some(reason) => PostResult(Reply(500, FailureJson(InternalError, reason)), Some(delivery))
        case None => PostResult(Reply(200, SuccessJson(true, Received)), Some(delivery))
  }

  /** `OPTIONS /api/contact`: the CORS preflight answer. */
  function Options(): (r: Response)
    ensures r.status == 200 && r.body == NoBody
    ensures ("Access-Control-Allow-Origin", "*") in r.headers
    ensures ("Access-Control-Allow-Methods", "POST, OPTIONS") in r.headers
    ensures ("Access-Control-Allow-Headers", "Content-Type") in r.headers
  {
    Response(200, NoBody, [
      ("Access-Control-Allow-Origin", "*"),
      ("Access-Control-Allow-Methods", "POST, OPTIONS"),
      ("Access-Control-Allow-Headers", "Content-Type")])
  }

  // ---------------------------------------------------------------------------
  // Properties of `POST`.

  /** A missing or empty field is reported before the address is looked at, and nothing is sent. */
  lemma MissingFieldFirst(data: ContactData, env: Env, sendError: Option<string>)
    requires !AllPresent(data)
    ensures Post(Json(data), env, sendError) == PostResult(Response(400, ErrorJson(MissingFields), []), None)
  {
  }

  /** Present fields with an address the pattern rejects get `Invalid email format`. */
  lemma MalformedAddress(data: ContactData, env: Env, sendError: Option<string>)
    requires AllPresent(data) && !EmailPattern(data.email.value)
    ensures Post(Json(data), env, sendError) == PostResult(Response(400, ErrorJson(InvalidEmail), []), None)
  {
    ValidEmailMeansPattern(data.email.value);
  }

  /** A valid request on a server without SMTP host, user or password is a 500 with `Email service not configured`. */
  lemma Unconfigured(data: ContactData, env: Env, sendError: Option<string>)
    requires AllPresent(data) && EmailPattern(data.email.value) && !Configured(env)
    ensures Post(Json(data), env, sendError).response == Response(500, FailureJson(InternalError, NotConfigured), [])
    ensures Post(Json(data), env, sendError).delivery.None?
  {
    ValidEmailMeansPattern(data.email.value);
  }

  /** A body that `request.json()` rejects is a 500 carrying the parse error's message, and nothing is sent. */
  lemma MalformedBody(reason: string, env: Env, sendError: Option<string>)
    ensures Post(Malformed(reason), env, sendError)
      == PostResult(Response(500, FailureJson(InternalError, reason), []), None)
  {
  }

  /** A valid request on a configured server whose send fails is a 500 carrying the send error's message, after the delivery was attempted. */
  lemma SendFailed(data: ContactData, env: Env, reason: string)
    requires AllPresent(data) && EmailPattern(data.email.value) && Configured(env)
    ensures var r := Post(Json(data), env, Some(reason));
      && r.response == Response(500, FailureJson(InternalError, reason), [])
      && r.delivery == Some(Prepare(data.name.value, data.email.value, data.message.value, env))
  {
    ValidEmailMeansPattern(data.email.value);
  }

  /** A valid request on a configured server is sent with the stated recipient, subject and bodies. */
  lemma Delivered(data: ContactData, env: Env)
    requires AllPresent(data) && EmailPattern(data.email.value) && Configured(env)
    ensures var r := Post(Json(data), env, None);
      && r.response == Response(200, SuccessJson(true, Received), [])
      && r.delivery.Some?
      && r.delivery.value.mail.to == Or(env.contactEmail, DefaultRecipient)
      && r.delivery.value.mail.subject == "New Contact Request from " + data.name.value
      && r.delivery.value.mail.text
         == TextOpen + data.name.value + "\nEmail: " + data.email.value + "\n\nMessage:\n" + data.message.value + TextClose
      && r.delivery.value.mail.html == HtmlBody(data.name.value, data.email.value, data.message.value)
  {
    ValidEmailMeansPattern(data.email.value);
    TextBodyCarriesMessage(data.name.value, data.email.value, data.message.value);
  }

  /** With `SMTP_PORT` unset the port is 587 and the connection is not secure; with `465` it is secure. */
  lemma PortChoice(env: Env)
    requires Configured(env)
    ensures env.smtpPort.None? ==>
      (Prepare("", "", "", env).transport.port == Some(587) && !Prepare("", "", "", env).transport.secure)
    ensures env.smtpPort == Some("465") ==> Prepare("", "", "", env).transport.secure
  {
    if env.smtpPort == Some("465") {
      assert NatToString(465) == "465" by {
        assert NatToString(46) == "46";
      }
      ParsePortNumber(465);
    }
  }

  /** A whitespace-only name passes the presence check, unlike the form's own check. */
  lemma BlankNameAccepted(env: Env)
    requires Configured(env)
    ensures Post(Json(ContactData(Some(" "), Some("a@b.c"), Some("hi"))), env, None).response.status == 200
  {
    SampleAddressValid();
    assert AllPresent(ContactData(Some(" "), Some("a@b.c"), Some("hi")));
  }

  lemma SampleAddressValid()
    ensures ValidEmail("a@b.c")
  {
    assert CharIndex("a@b.c", '@') == Some(1);
    assert "a@b.c"[3..4] == ".";
  }
}
