/**
 * The login / register page: two tabs, each with a form whose submission
 * is validated (fields, then email, then password length), then posted to
 * the user service; every outcome is shown in the status slot of the form
 * that was submitted, and a success stores the session and schedules the
 * redirect to the explorer.
 */
module Auth {
  import opened Wrappers
  import opened JsText

  const ApiBaseUrl := "http://192.168.0.124:8000"
  const FillAllFields := "Please fill in all fields"
  const EmailRequired := "Email is required"
  const PasswordTooShort := "Password must be at least 6 characters"
  const ConnectionError := "Connection error. Please try again."
  const MinPasswordLength := 6
  /** Where a successful submission sends the browser, after a delay. */
  const ExplorerPath := "/mars-explorer"

  /** The two forms, which are also the two tabs. */
  datatype FormKind = Login | Register

  datatype StatusKind = Success | Failure

  /** A status line: `{ message, type }`. */
  datatype Status = Status(message: string, kind: StatusKind)

  /**
   * What `FormData` yields for the submitted form. `email` is None for the
   * login form, which has no such field; an empty field gives `""`.
   */
  datatype FormInput = FormInput(username: string, password: string, email: Option<string>)

  /** The JSON body the service answers with; a field it leaves out is None. */
  datatype ReplyBody = ReplyBody(userId: string, message: Option<string>, detail: Option<string>)

  /** How the request ended: no usable answer (the fetch or the JSON parse threw), or an answer with its `ok` flag. */
  datatype Reply = NoReply | Replied(ok: bool, body: ReplyBody)

  /** A request to the user service: its URL and its JSON payload. */
  datatype Request =
    | LoginRequest(url: string, username: string, password: string)
    | RegisterRequest(url: string, username: string, email: string, password: string)

  /** A JavaScript value that is a string is truthy when it is not empty. */
  predicate Truthy(s: Option<string>)
  {
    s.Some? && s.value != ""
  }

  /**
   * The validation of `handleSubmit`: the first failing check's message, or
   * None when the form may be sent. Only the register form checks the email
   * and the password length.
   */
  function Validate(kind: FormKind, input: FormInput): (r: Option<string>)
    ensures r.None? <==>
      && !IsBlank(input.username) && input.password != ""
      && (kind == Register ==> Truthy(input.email) && Utf16Length(input.password) >= MinPasswordLength)
    ensures r.Some? ==> r.value == FillAllFields || r.value == EmailRequired || r.value == PasswordTooShort
  {
    if Trim(input.username) == "" || input.password == "" then Some(FillAllFields)
    else if kind == Register && !Truthy(input.email) then Some(EmailRequired)
    else if kind == Register && Utf16Length(input.password) < MinPasswordLength then Some(PasswordTooShort)
    else None
  }

  /** `data.message || data.detail || "<Login|Registration> failed"`: never empty. */
  function ErrorMessage(kind: FormKind, body: ReplyBody): (r: string)
    ensures r != ""
    ensures Truthy(body.message) ==> r == body.message.value
    ensures !Truthy(body.message) && Truthy(body.detail) ==> r == body.detail.value
    ensures !Truthy(body.message) && !Truthy(body.detail) ==> r == (if kind == Login then "Login failed" else "Registration failed")
  {
    if Truthy(body.message) then body.message.value
    else if Truthy(body.detail) then body.detail.value
    else (if kind == Login then "Login" else "Registration") + " failed"
  }

  /** The success line, carrying the id the service returned. */
  function SuccessMessage(kind: FormKind, userId: string): (r: string)
    ensures |r| >= |userId| && r[|r| - |userId|..] == userId
  {
    (if kind == Login then "Welcome back! User ID: " else "Registration successful! User ID: ") + userId
  }

  /**
   * The status a submission ends with, from the validation and the
   * service's answer: a success exactly when the form validates and the
   * service answers `ok`, and never an empty line.
   */
  function Outcome(kind: FormKind, input: FormInput, reply: Reply): (r: Status)
    ensures r.kind == Success <==> Validate(kind, input).None? && reply.Replied? && reply.ok
    ensures r.message != ""
  {
    match Validate(kind, input)
    case Some(msg) => Status(msg, Failure)
    case None =>
      match reply
      case NoReply => Status(ConnectionError, Failure)
      case Replied(ok, body) =>
        if ok then Status(SuccessMessage(kind, body.userId), Success)
        else Status(ErrorMessage(kind, body), Failure)
  }

  /** The request a validated form sends: the trimmed username, the password as typed. */
  function RequestFor(kind: FormKind, input: FormInput): (r: Request)
    ensures r.LoginRequest? <==> kind == Login
    ensures r.url == ApiBaseUrl + (if kind == Login then "/user/login" else "/user/register")
    ensures r.username == Trim(input.username) && r.password == input.password
    ensures r.RegisterRequest? ==> r.email == input.email.GetOr("")
  {
    if kind == Login then LoginRequest(ApiBaseUrl + "/user/login", Trim(input.username), input.password)
    else RegisterRequest(ApiBaseUrl + "/user/register", Trim(input.username), input.email.GetOr(""), input.password)
  }

  class AuthPage {
    var activeTab: FormKind
    var loginStatus: Option<Status>
    var registerStatus: Option<Status>
    var isSubmitting: bool
    /** `sessionStorage`. */
    var session: map<string, string>
    /** The pending `window.location.href` change, if a success scheduled one. */
    var redirect: Option<string>

    /** First render: the login tab, no status, nothing submitting. */
    constructor ()
      ensures activeTab == Login && loginStatus.None? && registerStatus.None? && !isSubmitting
      ensures session == map[] && redirect.None?
    {
      activeTab, loginStatus, registerStatus, isSubmitting := Login, None, None, false;
      session, redirect := map[], None;
    }

    /** `handleTabChange`: the tab switches and both status lines clear. */
    method HandleTabChange(tab: FormKind)
      modifies this
      ensures activeTab == tab && loginStatus.None? && registerStatus.None?
      ensures isSubmitting == old(isSubmitting) && session == old(session) && redirect == old(redirect)
    {
      activeTab := tab;
      loginStatus, registerStatus := None, None;
    }

    /** Shows `s` in the slot of the `kind` form. */
    method SetStatus(kind: FormKind, s: Status)
      modifies this
      ensures kind == Login ==> loginStatus == Some(s) && registerStatus == old(registerStatus)
      ensures kind == Register ==> registerStatus == Some(s) && loginStatus == old(loginStatus)
      ensures activeTab == old(activeTab) && isSubmitting == old(isSubmitting)
      ensures session == old(session) && redirect == old(redirect)
    {
      if kind == Login {
        loginStatus := Some(s);
      } else {
        registerStatus := Some(s);
      }
    }

    /**
     * `handleSubmit` for the `kind` form: both status lines clear, the
     * checks run in order and the first failure is shown without a
     * request; otherwise the request is sent, and the answer (or its
     * absence) decides the status. A success also stores the returned user
     * id and the trimmed username and schedules the redirect.
     */
    method HandleSubmit(kind: FormKind, input: FormInput, reply: Reply) returns (sent: Option<Request>)
      modifies this
      ensures !isSubmitting
      ensures kind == Login ==> loginStatus == Some(Outcome(kind, input, reply)) && registerStatus.None?
      ensures kind == Register ==> registerStatus == Some(Outcome(kind, input, reply)) && loginStatus.None?
      ensures sent == (if Validate(kind, input).None? then Some(RequestFor(kind, input)) else None)
      ensures Outcome(kind, input, reply).kind == Success ==>
        && session == old(session)["userId" := reply.body.userId]["username" := Trim(input.username)]
        && redirect == Some(ExplorerPath)
      ensures Outcome(kind, input, reply).kind == Failure ==> session == old(session) && redirect == old(redirect)
      ensures activeTab == old(activeTab)
    {
      isSubmitting := true;
      loginStatus, registerStatus := None, None;
      sent := None;
      var username := Trim(input.username);
      if username == "" || input.password == "" {
        SetStatus(kind, Status(FillAllFields, Failure));
        isSubmitting := false;
        return;
      }
      if kind == Register {
        if !Truthy(input.email) {
          SetStatus(kind, Status(EmailRequired, Failure));
          isSubmitting := false;
          return;
        }
        if Utf16Length(input.password) < MinPasswordLength {
          SetStatus(kind, Status(PasswordTooShort, Failure));
          isSubmitting := false;
          return;
        }
      }
      if kind == Login {
        sent := Some(LoginRequest(ApiBaseUrl + "/user/login", username, input.password));
      } else {
        sent := Some(RegisterRequest(ApiBaseUrl + "/user/register", username, input.email.GetOr(""), input.password));
      }
      match reply {
        case NoReply =>
          SetStatus(kind, Status(ConnectionError, Failure));
        case Replied(ok, body) =>
          if ok {
            session := session["userId" := body.userId];
            session := session["username" := username];
            SetStatus(kind, Status(SuccessMessage(kind, body.userId), Success));
            redirect := Some(ExplorerPath);
          } else {
            SetStatus(kind, Status(ErrorMessage(kind, body), Failure));
          }
      }
      isSubmitting := false;
    }
  }

  /** A whitespace-only username counts as missing, whatever else the form holds. */
  lemma BlankUsernameRejected(kind: FormKind, input: FormInput)
    requires forall i :: 0 <= i < |input.username| ==> IsWhitespace(input.username[i])
    ensures Validate(kind, input) == Some(FillAllFields)
  {
    BlankIffAllWhitespace(input.username);
  }

  /** The validation fails with the fields message exactly when the trimmed username or the password is empty. */
  lemma FieldsCheckedFirst(kind: FormKind, input: FormInput)
    ensures Validate(kind, input) == Some(FillAllFields) <==> IsBlank(input.username) || input.password == ""
  {
  }

  /** Login never looks at the email or the password's length: only the two fields decide. */
  lemma LoginChecksOnlyFields(input: FormInput, email: Option<string>, password: string)
    requires password != "" <==> input.password != ""
    ensures Validate(Login, input) == Validate(Login, FormInput(input.username, password, email))
    ensures Validate(Login, input).Some? <==> IsBlank(input.username) || input.password == ""
  {
  }

  /**
   * Register is stricter than login: every form login rejects, register
   * rejects with the same message, and every form register accepts, login
   * accepts.
   */
  lemma RegisterStricter(input: FormInput)
    ensures Validate(Login, input).Some? ==> Validate(Register, input) == Validate(Login, input)
    ensures Validate(Register, input).None? ==> Validate(Login, input).None?
  {
  }

  /** A register form with its fields filled is refused for its email before its password length is looked at. */
  lemma EmailBeforeLength(input: FormInput)
    requires !IsBlank(input.username) && input.password != ""
    ensures !Truthy(input.email) ==> Validate(Register, input) == Some(EmailRequired)
    ensures Truthy(input.email) ==>
      (Validate(Register, input) == Some(PasswordTooShort) <==> Utf16Length(input.password) < MinPasswordLength)
  {
  }

  /** A password of six or more characters always passes the length check; one of fewer than three never does. */
  lemma LengthBounds(input: FormInput)
    requires !IsBlank(input.username) && Truthy(input.email)
    ensures |input.password| >= MinPasswordLength ==> Validate(Register, input).None?
    ensures 0 < |input.password| < 3 ==> Validate(Register, input) == Some(PasswordTooShort)
  {
  }

  /** The service's answer only matters once the form validates. */
  lemma InvalidIgnoresReply(kind: FormKind, input: FormInput, a: Reply, b: Reply)
    requires Validate(kind, input).Some?
    ensures Outcome(kind, input, a) == Outcome(kind, input, b) == Status(Validate(kind, input).value, Failure)
  {
  }
}
