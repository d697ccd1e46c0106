/**
 * The contact form (src/components/ContactSection.tsx): its client-side
 * validation, how typing clears the errors on display, and the state changes
 * of a submission.
 *
 * `Form` is the component's state as a value, and `Validate`, `Change`,
 * `Submit`, `Reset` and `ProvisioningDone` are its transitions; the class
 * `ContactSection` keeps the same state in fields and its methods are proved
 * to make exactly those transitions. The `fetch` of a submission is an
 * oracle: the endpoint's response, or the message of a network failure.
 */
module ContactForm {
  import opened Strings
  import opened EmailFormat
  import ContactApi

  const NameRequired := "User name is required"
  const EmailRequired := "User email is required"
  const InvalidEmailFormat := "Invalid email format"
  const MessageRequired := "Request details are required"
  const SubmitFailed := "Failed to submit request"

  /** The three inputs, by their `name` attribute. */
  datatype Field = Name | Email | Message

  function Key(field: Field): string
  {
    match field
    case Name => "name"
    case Email => "email"
    case Message => "message"
  }

  datatype Form = Form(
    name: string,
    email: string,
    message: string,
    errors: map<string, string>,
    isSubmitting: bool,
    showProvisioning: bool)

  const Initial := Form("", "", "", map[], false, false)

  function FieldValue(f: Form, field: Field): string
  {
    match field
    case Name => f.name
    case Email => f.email
    case Message => f.message
  }

  /** An error is on display when it is present and non-empty. */
  predicate Shown(errors: map<string, string>, key: string)
  {
    key in errors && errors[key] != ""
  }

  // ---------------------------------------------------------------------------
  // Validation.

  /**
   * The errors `validateForm` records: a name or message whose trimmed text is
   * empty is required; an email is required when blank and otherwise must
   * match the pattern as typed, untrimmed.
   */
  function FieldErrors(name: string, email: string, message: string): map<string, string>
  {
    var e0: map<string, string> := if Blank(name) then map["name" := NameRequired] else map[];
    var e1 := if Blank(email) then e0["email" := EmailRequired]
      else if !ValidEmail(email) then e0["email" := InvalidEmailFormat]
      else e0;
    if Blank(message) then e1["message" := MessageRequired] else e1
  }

  function Validate(f: Form): Form
  {
    f.(errors := FieldErrors(f.name, f.email, f.message))
  }

  /** Each field has an error exactly when it fails its check, and the email's two errors exclude each other. */
  lemma FieldErrorsExact(name: string, email: string, message: string)
    ensures var r := FieldErrors(name, email, message);
      && r.Keys <= {"name", "email", "message"}
      && ("name" in r <==> Blank(name)) && ("name" in r ==> r["name"] == NameRequired)
      && ("message" in r <==> Blank(message)) && ("message" in r ==> r["message"] == MessageRequired)
      && ("email" in r <==> Blank(email) || !EmailPattern(email))
      && ("email" in r ==> (r["email"] == EmailRequired <==> Blank(email)))
      && ("email" in r ==> (r["email"] == InvalidEmailFormat <==> !Blank(email)))
  {
    ValidEmailMeansPattern(email);
  }

  /** Validation passes exactly when name and message are not blank and the email matches the pattern. */
  lemma NoErrorsIffValid(name: string, email: string, message: string)
    ensures FieldErrors(name, email, message) == map[]
      <==> !Blank(name) && !Blank(message) && EmailPattern(email)
  {
    ValidEmailMeansPattern(email);
    var r := FieldErrors(name, email, message);
    if Blank(name) { assert "name" in r; }
    if Blank(message) { assert "message" in r; }
    if !EmailPattern(email) { assert "email" in r; }
  }

  /** The pattern sees the email as typed: a space before a non-blank address makes it invalid, not missing. */
  lemma PaddedEmailInvalid(name: string, email: string, message: string)
    requires !Blank(email)
    ensures FieldErrors(name, " " + email, message)["email"] == InvalidEmailFormat
  {
    PaddedAddressRejected(email);
    var k :| 0 <= k < |email| && !IsSpace(email[k]);
    assert (" " + email)[k + 1] == email[k];
  }

  // ---------------------------------------------------------------------------
  // Typing.

  /** `handleChange`'s errors: the field's error and the submit error, when on display, become empty. */
  function ClearErrors(errors: map<string, string>, key: string): (r: map<string, string>)
    ensures r.Keys == errors.Keys
    ensures !Shown(r, key) && !Shown(r, "submit")
    ensures forall k :: k in r && k != key && k != "submit" ==> r[k] == errors[k]
  {
    var e := if Shown(errors, key) then errors[key := ""] else errors;
    if Shown(e, "submit") then e["submit" := ""] else e
  }

  /** `handleChange`: the named field takes the value, its error and the submit error are cleared. */
  function Change(f: Form, field: Field, value: string): (r: Form)
    ensures FieldValue(r, field) == value
    ensures forall g :: g != field ==> FieldValue(r, g) == FieldValue(f, g)
    ensures r.errors == ClearErrors(f.errors, Key(field))
    ensures r.isSubmitting == f.isSubmitting && r.showProvisioning == f.showProvisioning
  {
    var g := match field
      case Name => f.(name := value)
      case Email => f.(email := value)
      case Message => f.(message := value);
    g.(errors := ClearErrors(f.errors, Key(field)))
  }

  // ---------------------------------------------------------------------------
  // Submitting.

  /** What the `fetch` of a submission comes back with. */
  datatype Reply = Answered(response: ContactApi.Response) | NetworkFailure(reason: string)

  /** `response.ok`: a status in 200..299. */
  predicate ReplyOk(reply: Reply)
  {
    reply.Answered? && 200 <= reply.response.status < 300
  }

  /**
   * The message of the error thrown for a response that is not ok:
   * `message || error || 'Failed to submit request'`, with a body that is not
   * JSON read as `{}`.
   */
  function FailureText(body: ContactApi.Body): (r: string)
    ensures r != ""
    ensures body.NoBody? ==> r == SubmitFailed
  {
    match body
    case FailureJson(error, message) =>
      if message != "" then message else if error != "" then error else SubmitFailed
    case SuccessJson(_, message) => if message != "" then message else SubmitFailed
    case ErrorJson(error) => if error != "" then error else SubmitFailed
    case NoBody => SubmitFailed
  }

  /** The error a failed submission shows. */
  function Failure(reply: Reply): string
  {
    match reply
    case Answered(response) => FailureText(response.body)
    case NetworkFailure(reason) => reason
  }

  /**
   * `handleSubmit`: validate; on success set both flags, then either keep
   * them (the endpoint answered ok; the reset follows later) or clear them and
   * show a lone submit error.
   */
  function Submit(f: Form, reply: Reply): Form
  {
    var v := Validate(f);
    if v.errors != map[] then v
    else if ReplyOk(reply) then v.(isSubmitting := true, showProvisioning := true)
    else v.(isSubmitting := false, showProvisioning := false, errors := map["submit" := Failure(reply)])
  }

  /** The timer three seconds after an accepted submission: empty fields, both flags down. */
  function Reset(f: Form): (r: Form)
    ensures r.name == r.email == r.message == ""
    ensures !r.isSubmitting && !r.showProvisioning && r.errors == f.errors
  {
    f.(name := "", email := "", message := "", isSubmitting := false, showProvisioning := false)
  }

  /** The provisioning animation's `onComplete`: both flags down, nothing else touched. */
  function ProvisioningDone(f: Form): (r: Form)
    ensures !r.isSubmitting && !r.showProvisioning
    ensures r.name == f.name && r.email == f.email && r.message == f.message && r.errors == f.errors
  {
    f.(isSubmitting := false, showProvisioning := false)
  }

  /** A form that fails validation shows the field errors and neither flag is raised. */
  lemma InvalidFormStaysIdle(f: Form, reply: Reply)
    requires FieldErrors(f.name, f.email, f.message) != map[]
    ensures var r := Submit(f, reply);
      && r.errors == FieldErrors(f.name, f.email, f.message)
      && r.isSubmitting == f.isSubmitting && r.showProvisioning == f.showProvisioning
      && r.name == f.name && r.email == f.email && r.message == f.message
  {
  }

  /** A valid form whose submission fails ends with both flags down and exactly one, non-empty for a response, submit error. */
  lemma FailedSubmission(f: Form, reply: Reply)
    requires FieldErrors(f.name, f.email, f.message) == map[] && !ReplyOk(reply)
    ensures var r := Submit(f, reply);
      && !r.isSubmitting && !r.showProvisioning
      && r.errors.Keys == {"submit"}
      && (reply.Answered? ==> r.errors["submit"] != "")
      && r.name == f.name && r.email == f.email && r.message == f.message
  {
  }

  /** A valid form the endpoint accepts is busy with no errors until the reset clears it. */
  lemma AcceptedSubmission(f: Form, reply: Reply)
    requires FieldErrors(f.name, f.email, f.message) == map[] && ReplyOk(reply)
    ensures var r := Submit(f, reply);
      && r.isSubmitting && r.showProvisioning && r.errors == map[]
      && Reset(r) == Initial
  {
  }

  /** The body the form sends. */
  function Request(f: Form): ContactApi.RequestBody
  {
    ContactApi.Json(ContactApi.ContactData(Some(f.name), Some(f.email), Some(f.message)))
  }

  /** Whatever the client lets through, the endpoint never rejects as a bad request. */
  lemma ClientValidPassesServer(f: Form, env: ContactApi.Env, sendError: Option<string>)
    requires FieldErrors(f.name, f.email, f.message) == map[]
    ensures ContactApi.Post(Request(f), env, sendError).response.status != 400
  {
    NoErrorsIffValid(f.name, f.email, f.message);
    assert f.name != [] && f.message != [];
    ValidEmailMeansPattern(f.email);
    assert f.email != [];
  }

  /** Submitting a valid form to a server without SMTP settings shows `Email service not configured`. */
  lemma UnconfiguredServerShown(f: Form, env: ContactApi.Env, sendError: Option<string>)
    requires FieldErrors(f.name, f.email, f.message) == map[] && !ContactApi.Configured(env)
    ensures var reply := Answered(ContactApi.Post(Request(f), env, sendError).response);
      Submit(f, reply).errors == map["submit" := ContactApi.NotConfigured]
  {
    NoErrorsIffValid(f.name, f.email, f.message);
    assert f.name != [] && f.message != [];
    ValidEmailMeansPattern(f.email);
    assert f.email != [];
  }

  /** Submitting a valid form whose send fails shows the send error's message, or `Internal server error` when it is empty. */
  lemma SendFailureShown(f: Form, env: ContactApi.Env, reason: string)
    requires FieldErrors(f.name, f.email, f.message) == map[] && ContactApi.Configured(env)
    ensures var reply := Answered(ContactApi.Post(Request(f), env, Some(reason)).response);
      && !Submit(f, reply).isSubmitting && !Submit(f, reply).showProvisioning
      && Submit(f, reply).errors == map["submit" := if reason != "" then reason else ContactApi.InternalError]
  {
    NoErrorsIffValid(f.name, f.email, f.message);
    assert f.name != [] && f.message != [];
    ValidEmailMeansPattern(f.email);
    assert f.email != [];
  }

  /** Submitting a valid form that the server delivers leaves the form busy, then empty. */
  lemma DeliveredSubmission(f: Form, env: ContactApi.Env)
    requires FieldErrors(f.name, f.email, f.message) == map[] && ContactApi.Configured(env)
    ensures var reply := Answered(ContactApi.Post(Request(f), env, None).response);
      && ReplyOk(reply)
      && Submit(f, reply).isSubmitting
      && Reset(Submit(f, reply)) == Initial
  {
    NoErrorsIffValid(f.name, f.email, f.message);
    assert f.name != [] && f.message != [];
    ValidEmailMeansPattern(f.email);
    assert f.email != [];
  }

  // ---------------------------------------------------------------------------
  // The component.

  class ContactSection {
    var name: string
    var email: string
    var message: string
    var errors: map<string, string>
    var isSubmitting: bool
    var showProvisioning: bool

    function Snapshot(): Form
      reads this
    {
      Form(name, email, message, errors, isSubmitting, showProvisioning)
    }

    constructor()
      ensures Snapshot() == Initial
    {
      name, email, message := "", "", "";
      errors := map[];
      isSubmitting, showProvisioning := false, false;
    }

    /** `validateForm`: builds the errors one check at a time and reports whether there are none. */
    method ValidateForm() returns (ok: bool)
      modifies this
      ensures Snapshot() == Validate(old(Snapshot()))
      ensures ok <==> errors == map[]
    {
      var newErrors: map<string, string> := map[];
      if Blank(name) {
        newErrors := newErrors["name" := NameRequired];
      }
      if Blank(email) {
        newErrors := newErrors["email" := EmailRequired];
      } else if !ValidEmail(email) {
        newErrors := newErrors["email" := InvalidEmailFormat];
      }
      if Blank(message) {
        newErrors := newErrors["message" := MessageRequired];
      }
      errors := newErrors;
      ok := |newErrors.Keys| == 0;
    }

    /** `handleChange`. */
    method HandleChange(field: Field, value: string)
      modifies this
      ensures Snapshot() == Change(old(Snapshot()), field, value)
    {
      match field {
        case Name => name := value;
        case Email => email := value;
        case Message => message := value;
      }
      var key := Key(field);
      var before := errors;
      if Shown(before, key) {
        errors := errors[key := ""];
      }
      if Shown(before, "submit") {
        errors := errors["submit" := ""];
      }
    }

    /** `handleSubmit`, with the `fetch` answered by `reply`. */
    method HandleSubmit(reply: Reply)
      modifies this
      ensures Snapshot() == Submit(old(Snapshot()), reply)
    {
      var ok := ValidateForm();
      if !ok {
        return;
      }
      isSubmitting := true;
      showProvisioning := true;
      if !ReplyOk(reply) {
        isSubmitting := false;
        showProvisioning := false;
        errors := map["submit" := Failure(reply)];
      }
    }

    /** The reset timer after an accepted submission. */
    method ResetAfterDelivery()
      modifies this
      ensures Snapshot() == Reset(old(Snapshot()))
    {
      name, email, message := "", "", "";
      isSubmitting := false;
      showProvisioning := false;
    }

    /** `onComplete` of the provisioning animation. */
    method ProvisioningComplete()
      modifies this
      ensures Snapshot() == ProvisioningDone(old(Snapshot()))
    {
      showProvisioning := false;
      isSubmitting := false;
    }
  }
}
