/** The signup form: its schema (with the password confirmation check), the
    role pre-selected from the page's `role` query parameter, the registration
    payload that uses the e-mail as username, and the redirect by role. */
module SignupForm {
  import opened Common
  import opened Accounts

  /** The form's fields; `role` is the radio group's value. */
  datatype SignupValues = SignupValues(name: string, email: string, password: string, confirmPassword: string, role: string)

  /** The role pre-selected from `?role=...`: freelancer only for that exact value. */
  function InitialRole(param: Option<string>): (role: string)
    ensures role == "freelancer" <==> param == Some("freelancer")
    ensures role != "freelancer" ==> role == "client"
  {
    if param == Some("freelancer") then "freelancer" else "client"
  }

  function Defaults(param: Option<string>): SignupValues {
    SignupValues("", "", "", "", InitialRole(param))
  }

  predicate RoleChoice(role: string) {
    role == "client" || role == "freelancer"
  }

  // ---------------------------------------------------------------------------
  // Schema
  // ---------------------------------------------------------------------------

  datatype Field = Name | Email | Password | ConfirmPassword | Role

  /** One field's checks; `isEmail` is zod's e-mail test. The mismatch check is
      a refinement of the whole object and is reported on `confirmPassword`;
      zod skips it when the object has already failed fatally, which an
      invalid role (an enum miss) does and a short string does not. */
  predicate FieldOk(v: SignupValues, isEmail: string -> bool, f: Field) {
    match f
    case Name => |v.name| >= 2
    case Email => isEmail(v.email)
    case Password => |v.password| >= 6
    case ConfirmPassword => |v.confirmPassword| >= 6 && (RoleChoice(v.role) ==> v.password == v.confirmPassword)
    case Role => RoleChoice(v.role)
  }

  predicate Valid(v: SignupValues, isEmail: string -> bool) {
    FieldOk(v, isEmail, Name) && FieldOk(v, isEmail, Email) && FieldOk(v, isEmail, Password)
    && FieldOk(v, isEmail, ConfirmPassword) && FieldOk(v, isEmail, Role)
  }

  /** The fields the form marks invalid; it submits only when there are none. */
  function SignupErrors(v: SignupValues, isEmail: string -> bool): (errors: set<Field>)
    ensures forall f :: f in errors <==> !FieldOk(v, isEmail, f)
    ensures errors == {} <==> Valid(v, isEmail)
  {
    set f | f in {Name, Email, Password, ConfirmPassword, Role} && !FieldOk(v, isEmail, f)
  }

  /** A form that submits has matching passwords of at least 6 characters and a
      client or freelancer role. */
  lemma ValidMeansMatching(v: SignupValues, isEmail: string -> bool)
    requires Valid(v, isEmail)
    ensures v.password == v.confirmPassword && |v.password| >= 6
    ensures v.role == "client" || v.role == "freelancer"
  {
    assert FieldOk(v, isEmail, ConfirmPassword) && FieldOk(v, isEmail, Role);
  }

  /** A mismatch is reported on `confirmPassword` whenever the role is one of
      the two choices, even with every other field valid. */
  lemma MismatchReported(v: SignupValues, isEmail: string -> bool)
    requires RoleChoice(v.role) && v.password != v.confirmPassword
    ensures ConfirmPassword in SignupErrors(v, isEmail)
  {
  }

  /** With a role outside the choices, only the role is reported: the mismatch
      check does not run. */
  lemma MismatchHiddenByBadRole()
    ensures var v := SignupValues("Ada", "ada@example.com", "secret1", "secret2", "admin");
      SignupErrors(v, (e: string) => e == "ada@example.com") == {Role}
  {
    var v := SignupValues("Ada", "ada@example.com", "secret1", "secret2", "admin");
    var isEmail := (e: string) => e == "ada@example.com";
    assert FieldOk(v, isEmail, Name) && FieldOk(v, isEmail, Email) && FieldOk(v, isEmail, Password);
    assert FieldOk(v, isEmail, ConfirmPassword) && !FieldOk(v, isEmail, Role);
  }

  /** The pre-filled form never submits: the name is empty. */
  lemma DefaultsNotSubmittable(param: Option<string>, isEmail: string -> bool)
    ensures Name in SignupErrors(Defaults(param), isEmail)
    ensures Role !in SignupErrors(Defaults(param), isEmail)
  {
  }

  // ---------------------------------------------------------------------------
  // Registration
  // ---------------------------------------------------------------------------

  /** The body of the registration call. */
  datatype RegisterData = RegisterData(
    email: string, password: string, passwordConfirm: string, name: string, role: string, username: string)

  /** The payload for submitted fields: the e-mail doubles as the username. */
  function RegisterPayload(v: SignupValues): (d: RegisterData)
    ensures d.username == d.email == v.email
    ensures d.password == v.password && d.passwordConfirm == v.confirmPassword
    ensures d.name == v.name && d.role == v.role
  {
    RegisterData(v.email, v.password, v.confirmPassword, v.name, v.role, v.email)
  }

  /** A submitted form whose e-mail is not yet in use, as login or as username,
      and fits the username's length, with a name within its length, creates a
      client or a freelancer, never an admin, with that e-mail as its login and
      username. */
  lemma SubmittedFormCreatesUser(v: SignupValues, isEmail: string -> bool, users: seq<User>, nextId: nat)
    requires Valid(v, isEmail) && !isEmail("")
    requires !EmailInUse(users, v.email) && !UsernameInUse(users, v.email)
    requires |v.email| <= UsernameMaxLength && |v.name| <= NameMaxLength
    ensures var d := RegisterPayload(v);
      var r := CreateUser(users, nextId, d.email, d.username, d.role, d.name);
      && r.Created? && r.user.role != Admin
      && r.user.email == v.email && r.user.username == v.email
      && (r.user.role == Client <==> v.role == "client")
  {
    assert FieldOk(v, isEmail, Email) && FieldOk(v, isEmail, Role);
    assert v.email != "";
  }

  /** Where a successful signup goes. */
  function DashboardFor(role: string): (path: string)
    ensures path == "/client/dashboard" <==> role == "client"
    ensures path == "/freelancer/dashboard" <==> role != "client"
  {
    if role == "client" then "/client/dashboard" else "/freelancer/dashboard"
  }

  /** What the auth context's `register` answers, or an exception. */
  datatype RegisterResult = RegisterResult(success: bool, error: Option<string>) | RegisterThrew

  datatype Toast = AccountCreated | SignupFailed(description: string)

  const RegistrationFallback: string := "An error occurred during registration"
  const UnexpectedFallback: string := "An unexpected error occurred during signup."

  /** The toast for the answer: `result.error` when truthy, else the fallback. */
  function ResultToast(result: RegisterResult): (t: Toast)
    ensures t.AccountCreated? <==> result.RegisterResult? && result.success
    ensures result.RegisterThrew? ==> t == SignupFailed(UnexpectedFallback)
    ensures result.RegisterResult? && !result.success ==>
      t == SignupFailed(if result.error.Some? && result.error.value != "" then result.error.value else RegistrationFallback)
  {
    match result
    case RegisterThrew => SignupFailed(UnexpectedFallback)
    case RegisterResult(success, error) =>
      if success then AccountCreated
      else SignupFailed(if error.Some? && error.value != "" then error.value else RegistrationFallback)
  }

  class Signup {
    var values: SignupValues
    var isLoading: bool

    constructor (roleParam: Option<string>)
      ensures values == Defaults(roleParam) && !isLoading
    {
      values := Defaults(roleParam);
      isLoading := false;
    }

    method Edit(v: SignupValues)
      modifies this
      ensures values == v && isLoading == old(isLoading)
    {
      values := v;
    }

    /** `onSubmit` behind the form's validation: invalid fields send nothing;
        valid ones send the payload, show the toast and, on success, redirect
        by role. Loading ends either way. */
    method Submit(isEmail: string -> bool, result: RegisterResult)
      returns (sent: Option<RegisterData>, toast: Option<Toast>, redirect: Option<string>)
      modifies this
      ensures values == old(values)
      ensures !Valid(values, isEmail) ==> sent.None? && toast.None? && redirect.None? && isLoading == old(isLoading)
      ensures Valid(values, isEmail) ==>
        sent == Some(RegisterPayload(values)) && toast == Some(ResultToast(result)) && !isLoading
      ensures redirect.Some? <==> Valid(values, isEmail) && result.RegisterResult? && result.success
      ensures redirect.Some? ==> redirect.value == DashboardFor(values.role)
    {
      if SignupErrors(values, isEmail) != {} {
        return None, None, None;
      }
      isLoading := true;
      sent := Some(RegisterPayload(values));
      toast := Some(ResultToast(result));
      redirect := None;
      if result.RegisterResult? && result.success {
        redirect := Some(DashboardFor(values.role));
      }
      isLoading := false;
    }
  }
}
