/** The registration and login forms: their rules, the registration payload, where a
    failed request's errors go, and what the login form does with the server's answer. */
module AuthForms {
  import opened Wrappers
  import opened JsStrings
  import opened FormRules
  import opened AuthSlice

  // ---- Registration ----

  datatype RegisterData = RegisterData(name: string, email: string, password: string, confirmPassword: string)

  /** What is sent to the server. */
  datatype NewUser = NewUser(name: string, email: string, password: string)

  function RegisterPasswordRule(password: string): Check {
    LengthRule(password, "Password is required", 6, "Password must be at least 6 characters long")
  }

  /** Required, then equal to the password field. */
  function ConfirmRule(confirm: string, password: string): (c: Check)
    ensures c.Ok? <==> confirm != "" && confirm == password
    ensures confirm == "" ==> c == Bad("Please confirm your password")
    ensures confirm != "" && confirm != password ==> c == Bad("The passwords do not match")
  {
    if confirm == "" then Bad("Please confirm your password")
    else if confirm != password then Bad("The passwords do not match")
    else Ok
  }

  predicate RegisterValid(d: RegisterData) {
    NameRule(d.name).Ok? && EmailRule(d.email).Ok? &&
    RegisterPasswordRule(d.password).Ok? && ConfirmRule(d.confirmPassword, d.password).Ok?
  }

  /** `const {confirmPassword, ...userData} = data`. */
  function StripConfirm(d: RegisterData): (u: NewUser)
    ensures RegisterData(u.name, u.email, u.password, d.confirmPassword) == d
  {
    NewUser(d.name, d.email, d.password)
  }

  /** A form that passes its rules sends a name of two or more characters, an address the
      pattern accepts, and a password of six or more characters that the confirmation
      repeats; the confirmation itself is not sent, and stripping loses nothing else. */
  lemma ValidRegistration(d: RegisterData)
    requires RegisterValid(d)
    ensures var u := StripConfirm(d);
      Utf16Length(u.name) >= 2 && MatchesEmail(u.email) && Utf16Length(u.password) >= 6 &&
      u.password == d.confirmPassword
    ensures RegisterData(StripConfirm(d).name, StripConfirm(d).email, StripConfirm(d).password, d.confirmPassword) == d
  {
  }

  const RegisterFailed := "Registration failed. Please try again."
  const AlreadyRegistered := "This email address is already registered."

  /** The server's `data.message` says the address is taken, in any letter case. */
  predicate SaysEmailTaken(err: ServerError) {
    err.dataMessage.Some? && err.dataMessage.value != "" && Contains(ToLower(err.dataMessage.value), "email already exists")
  }

  /** The server's field errors first, then a taken address on the email field, then the
      toasted message as a root error. */
  function RegisterErrorPlan(err: ServerError): (p: ErrorPlan)
    ensures p.PerField? <==> err.errors.Some?
    ensures p.PerField? ==> p.entries == err.errors.value
    ensures p.OnField? <==> err.errors.None? && SaysEmailTaken(err)
    ensures p.OnField? ==> p.field == "email" && p.message == AlreadyRegistered
    ensures p.OnRoot? ==> p.message == ErrorMessage(err, RegisterFailed)
  {
    if err.errors.Some? then PerField(err.errors.value)
    else if SaysEmailTaken(err) then OnField("email", AlreadyRegistered)
    else OnRoot(ErrorMessage(err, RegisterFailed))
  }

  /** A taken address is recognised whatever its letter case: any spelling `w` of the
      phrase that lower-cases to it, anywhere in the message. */
  lemma TakenEmailAnyCase(pre: string, w: string, post: string)
    requires ToLower(w) == "email already exists"
    ensures var err := ServerError(None, Some(pre + w + post), None, None);
      RegisterErrorPlan(err) == OnField("email", AlreadyRegistered)
  {
    var m := pre + w + post;
    var low := ToLower(m);
    var i := |pre|;
    assert |w| == 20;
    assert low[i..][..20] == "email already exists" by {
      forall k | 0 <= k < 20 ensures low[i..][..20][k] == "email already exists"[k] {
        assert low[i + k] == LowerChar(m[i + k]);
        assert m[i + k] == w[k];
        assert ToLower(w)[k] == LowerChar(w[k]);
      }
    }
    assert IsPrefix("email already exists", low[i..]);
  }

  /** The registration form's state across a submission. */
  class RegisterForm {
    var sent: seq<NewUser>
    var toasts: seq<string>
    var location: Option<string>
    const errors: FormErrors

    constructor ()
      ensures sent == [] && toasts == [] && location == None
      ensures fresh(errors) && errors.errors == map[]
    {
      sent := [];
      toasts := [];
      location := None;
      errors := new FormErrors();
    }

    /** A submission: the form library runs the handler only for a form that passes its
        rules, and the handler sends the data without the confirmation. */
    method Submit(d: RegisterData) returns (called: bool)
      modifies this
      ensures called <==> RegisterValid(d)
      ensures sent == if called then old(sent) + [StripConfirm(d)] else old(sent)
      ensures toasts == old(toasts) && location == old(location)
    {
      called := RegisterValid(d);
      if called {
        sent := sent + [StripConfirm(d)];
      }
    }

    method Fail(err: ServerError)
      modifies this, errors
      ensures toasts == old(toasts) + [ErrorMessage(err, RegisterFailed)]
      ensures var p := RegisterErrorPlan(err);
        (p.PerField? ==> errors.errors == ApplyErrors(old(errors.errors), p.entries)) &&
        (p.OnField? ==> errors.errors == old(errors.errors)["email" := AlreadyRegistered]) &&
        (p.OnRoot? ==> errors.errors == old(errors.errors)[RootKey := ErrorMessage(err, RegisterFailed)])
      ensures sent == old(sent) && location == old(location)
    {
      toasts := toasts + [ErrorMessage(err, RegisterFailed)];
      errors.Report(RegisterErrorPlan(err));
    }

    /** The success effect: a toast, then the login page. */
    method Succeeded()
      modifies this
      ensures toasts == old(toasts) + ["Registration successful! Please log in to continue"]
      ensures location == Some("/login") && sent == old(sent)
    {
      toasts := toasts + ["Registration successful! Please log in to continue"];
      location := Some("/login");
    }
  }

  // ---- Login ----

  function LoginPasswordRule(password: string): Check {
    LengthRule(password, "Password is required", 6, "Password must be at least 6 characters")
  }

  predicate LoginValid(email: string, password: string) {
    EmailRule(email).Ok? && LoginPasswordRule(password).Ok?
  }

  /** The handler's own check: both fields must be non-empty. */
  predicate LoginGuard(email: string, password: string): (ok: bool)
    ensures !ok <==> email == "" || password == ""
  {
    email != "" && password != ""
  }

  const MissingFields := "Please enter both email and password."
  const LoginFailed := "Login failed. Please check your credentials."

  /** The rules already demand both fields, so the handler's check never refuses a form
      the form library lets through. */
  lemma RulesImplyGuard(email: string, password: string)
    requires LoginValid(email, password)
    ensures LoginGuard(email, password)
  {
  }

  /** The login call's outcome: fulfilled with the response's `data` (when truthy), or
      rejected with an error. */
  datatype LoginResponse = Fulfilled(data: Option<Payload>) | Rejected(err: ServerError)

  datatype LoginOutcome = Dispatch(payload: Payload) | ErrorToast(message: string)

  /** A response with data sets the credentials; one without is thrown as a plain `Error`,
      which has neither `data` nor `error`, so it is reported with the default text. */
  function LoginOutcomeOf(r: LoginResponse): (o: LoginOutcome)
    ensures o.Dispatch? <==> r.Fulfilled? && r.data.Some?
    ensures o.Dispatch? ==> o.payload == r.data.value
    ensures r.Fulfilled? && r.data.None? ==> o == ErrorToast(LoginFailed)
    ensures r.Rejected? ==> o == ErrorToast(ErrorMessage(r.err, LoginFailed))
  {
    match r
    case Fulfilled(d) => if d.Some? then Dispatch(d.value) else ErrorToast(LoginFailed)
    case Rejected(e) => ErrorToast(ErrorMessage(e, LoginFailed))
  }

  /** The login form with the store it dispatches to. */
  class LoginForm {
    var calls: seq<(string, string)>
    var toasts: seq<string>
    var location: Option<string>
    const store: AuthStore

    constructor (s: AuthStore)
      ensures calls == [] && toasts == [] && location == None && store == s
    {
      calls := [];
      toasts := [];
      location := None;
      store := s;
    }

    /** A submission: the form library runs the handler only for a form that passes its
        rules, and the handler's own check for a missing field then always passes, so its
        toast never shows and every handled submission calls the server. */
    method Submit(email: string, password: string) returns (called: bool)
      modifies this
      ensures called <==> LoginValid(email, password)
      ensures calls == if called then old(calls) + [(email, password)] else old(calls)
      ensures toasts == old(toasts) && location == old(location)
    {
      if !LoginValid(email, password) {
        return false;
      }
      RulesImplyGuard(email, password);
      called := LoginGuard(email, password);
      toasts := if called then toasts else toasts + [MissingFields];
      calls := if called then calls + [(email, password)] else calls;
    }

    /** The rest of the handler once the call settles, then the success effect, which runs
      for every fulfilled call: a fulfilled call without data is reported as a failure
      and still leads to the home page. */
    method Respond(r: LoginResponse)
      modifies this, store
      ensures var o := LoginOutcomeOf(r);
        (o.Dispatch? ==> store.State() == SetCredentialsStep(old(store.State()), Some(o.payload))) &&
        (o.ErrorToast? ==> store.State() == old(store.State()))
      ensures toasts == old(toasts) +
        (if LoginOutcomeOf(r).ErrorToast? then [LoginOutcomeOf(r).message] else []) +
        (if r.Fulfilled? then ["Login successful"] else [])
      ensures location == if r.Fulfilled? then Some("/") else old(location)
      ensures calls == old(calls)
    {
      var o := LoginOutcomeOf(r);
      match o {
        case Dispatch(p) => store.SetCredentials(Some(p));
        case ErrorToast(m) => toasts := toasts + [m];
      }
      if r.Fulfilled? {
        toasts := toasts + ["Login successful"];
        location := Some("/");
      }
    }
  }

  /** Signing in with a user and a string token leaves the store holding them, and a reload
      of the page restores both. */
  lemma LoginPersists(st: Auth, u: User, t: string, parse: Parser)
    requires parse(UserText(u)) == Some(UserObject(u))
    ensures var o := LoginOutcomeOf(Fulfilled(Some(Payload(Some(u), TokenText(t)))));
      o.Dispatch? &&
      var after := SetCredentialsStep(st, Some(o.payload));
      after.user == UserObject(u) && after.token == Some(t) &&
      InitialState(after.storage, parse).user == UserObject(u) &&
      InitialState(after.storage, parse).token == Some(t)
  {
    CredentialsSurviveReload(st, u, t, parse);
  }
}
