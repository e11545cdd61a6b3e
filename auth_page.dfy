/** The sign-in and registration page: its two form schemas, the per-field
    error messages shown after a failed validation, the request sent after
    a successful one, and the redirect of a signed-in user. */
module AuthPage {
  import opened JsText
  import opened JsValues
  import opened Browser
  import opened FormChecks
  import Schema
  import ProtectedRoute

  const UsernameTooShort := "Username must be at least 3 characters"
  const PasswordTooShort := "Password must be at least 6 characters"
  const FullNameMissing := "Full name is required"
  const PasswordsDiffer := "Passwords do not match"

  /** `loginSchema`: issues in field order. */
  function LoginIssues(username: string, password: string): (issues: seq<Issue>)
    ensures issues == [] <==> JsLength(username) >= 3 && JsLength(password) >= 6
    ensures forall i :: 0 <= i < |issues| ==> issues[i].path in {"username", "password"}
  {
    MinLength("username", username, 3, UsernameTooShort) + MinLength("password", password, 6, PasswordTooShort)
  }

  /** The registration form's state, all text inputs. */
  datatype RegisterData = RegisterData(
    username: string, password: string, confirmPassword: string, fullName: string, role: string,
    ngoName: string, ngoRegistration: string, contactPhone: string, location: string)

  const InitialRegisterData :=
    RegisterData("", "", "", "", "user", "", "", "", "")

  /** `registerSchema`: the insert-user fields in column order with the
      overridden checks, then `confirmPassword`, then the refinement. A
      wrong role aborts the object, and then the refinement does not run.
      The optional text columns accept any text, and `password` has no
      length check of its own. */
  function RegisterIssues(d: RegisterData): (issues: seq<Issue>)
    ensures issues == [] <==>
      && JsLength(d.username) >= 3 && JsLength(d.fullName) >= 2 && d.role in Schema.RoleNames
      && JsLength(d.confirmPassword) >= 6 && d.password == d.confirmPassword
  {
    var roleOk := d.role in Schema.RoleNames;
    MinLength("username", d.username, 3, UsernameTooShort)
      + MinLength("fullName", d.fullName, 2, FullNameMissing)
      + OneOf("role", d.role, Schema.RoleNames)
      + MinLength("confirmPassword", d.confirmPassword, 6, PasswordTooShort)
      + (if roleOk && d.password != d.confirmPassword then [Issue("confirmPassword", PasswordsDiffer)] else [])
  }

  /** Equality with a confirmation of at least 6 characters makes every
      accepted password at least 6 characters long. */
  lemma AcceptedPasswordIsLong(d: RegisterData)
    requires RegisterIssues(d) == []
    ensures JsLength(d.password) >= 6
  {
  }

  /** The `errors` object the `forEach` builds: each issue with a truthy
      field name is written under it, so a later issue overwrites an
      earlier one. */
  function ErrorsOf(issues: seq<Issue>): map<string, string> {
    if |issues| == 0 then map[]
    else
      var last := issues[|issues| - 1];
      var errors := ErrorsOf(issues[..|issues| - 1]);
      if last.path != "" then errors[last.path := last.message] else errors
  }

  /** A key holds an error exactly when some issue names it, and the message
      shown is that of the last such issue. */
  lemma {:induction false} LastIssueWins(issues: seq<Issue>, k: string, i: int)
    ensures k in ErrorsOf(issues) <==> k != "" && exists j :: 0 <= j < |issues| && issues[j].path == k
    ensures (0 <= i < |issues| && issues[i].path == k && k != ""
             && forall j :: i < j < |issues| ==> issues[j].path != k) ==>
      k in ErrorsOf(issues) && ErrorsOf(issues)[k] == issues[i].message
  {
    if |issues| > 0 {
      var init := issues[..|issues| - 1];
      LastIssueWins(init, k, i);
      assert forall j :: 0 <= j < |init| ==> init[j] == issues[j];
      if k != "" && exists j :: 0 <= j < |issues| && issues[j].path == k {
        var j :| 0 <= j < |issues| && issues[j].path == k;
        if j < |init| {
          assert init[j].path == k;
        }
      }
    }
  }

  /** The `forEach` loop itself. */
  method CollectErrors(issues: seq<Issue>) returns (errors: map<string, string>)
    ensures errors == ErrorsOf(issues)
  {
    errors := map[];
    var i := 0;
    while i < |issues|
      invariant 0 <= i <= |issues|
      invariant errors == ErrorsOf(issues[..i])
    {
      assert issues[..i + 1][..i] == issues[..i];
      if issues[i].path != "" {
        errors := errors[issues[i].path := issues[i].message];
      }
      i := i + 1;
    }
    assert issues[..|issues|] == issues;
  }

  /** With a valid role, differing passwords always show "Passwords do not
      match" on the confirmation field, even when it is also too short. */
  lemma MismatchIsShown(d: RegisterData)
    requires d.role in Schema.RoleNames && d.password != d.confirmPassword
    ensures "confirmPassword" in ErrorsOf(RegisterIssues(d))
    ensures ErrorsOf(RegisterIssues(d))["confirmPassword"] == PasswordsDiffer
  {
    var issues := RegisterIssues(d);
    LastIssueWins(issues, "confirmPassword", |issues| - 1);
  }

  /** `const { confirmPassword, ...userData } = registerData` */
  datatype UserData = UserData(
    username: string, password: string, fullName: string, role: string,
    ngoName: string, ngoRegistration: string, contactPhone: string, location: string)

  function WithoutConfirmation(d: RegisterData): (u: UserData)
    ensures u.username == d.username && u.password == d.password && u.fullName == d.fullName
    ensures u.role == d.role && u.ngoName == d.ngoName && u.ngoRegistration == d.ngoRegistration
    ensures u.contactPhone == d.contactPhone && u.location == d.location
  {
    UserData(d.username, d.password, d.fullName, d.role, d.ngoName, d.ngoRegistration,
             d.contactPhone, d.location)
  }

  /** The JSON body the registration request carries. */
  function RequestBody(u: UserData): (body: Document)
    ensures "confirmPassword" !in body
  {
    map["username" := Str(u.username), "password" := Str(u.password), "fullName" := Str(u.fullName),
        "role" := Str(u.role), "ngoName" := Str(u.ngoName), "ngoRegistration" := Str(u.ngoRegistration),
        "contactPhone" := Str(u.contactPhone), "location" := Str(u.location)]
  }

  /** What the form accepts, the server's insert schema accepts too, with
      the same user name, password and role. */
  lemma AcceptedRegistrationIsInsertable(d: RegisterData)
    requires RegisterIssues(d) == []
    ensures var r := Schema.ParseInsertUser(RequestBody(WithoutConfirmation(d)));
      && r.Some? && r.value.username == d.username && r.value.password == d.password
      && r.value.role.Some? && Schema.RoleName(r.value.role.value) == d.role
  {
  }

  datatype LoginRequest = LoginRequest(username: string, password: string)

  /** The page's form state and the requests it sends. */
  class AuthForms {
    var loginErrors: map<string, string>
    var registerData: RegisterData
    var registerErrors: map<string, string>

    constructor ()
      ensures loginErrors == map[] && registerData == InitialRegisterData && registerErrors == map[]
    {
      loginErrors := map[];
      registerData := InitialRegisterData;
      registerErrors := map[];
    }

    /** `handleLoginSubmit`: show the errors and stop, or clear them and
        send the credentials. */
    method HandleLoginSubmit(username: string, password: string) returns (sent: Option<LoginRequest>)
      modifies this
      ensures loginErrors == ErrorsOf(LoginIssues(username, password))
      ensures sent.Some? <==> LoginIssues(username, password) == []
      ensures sent.Some? ==> sent.value == LoginRequest(username, password)
      ensures registerData == old(registerData) && registerErrors == old(registerErrors)
    {
      var issues := LoginIssues(username, password);
      if issues != [] {
        loginErrors := CollectErrors(issues);
        return None;
      }
      loginErrors := map[];
      sent := Some(LoginRequest(username, password));
    }

    /** `handleRegisterSubmit`: the same for the registration form, sending
        the form without its confirmation field. */
    method HandleRegisterSubmit() returns (sent: Option<UserData>)
      modifies this
      ensures registerErrors == ErrorsOf(RegisterIssues(old(registerData)))
      ensures sent.Some? <==> RegisterIssues(old(registerData)) == []
      ensures sent.Some? ==> sent.value == WithoutConfirmation(old(registerData))
      ensures registerData == old(registerData) && loginErrors == old(loginErrors)
    {
      var issues := RegisterIssues(registerData);
      if issues != [] {
        registerErrors := CollectErrors(issues);
        return None;
      }
      registerErrors := map[];
      sent := Some(WithoutConfirmation(registerData));
    }
  }

  /** The effect that moves a signed-in user off the page. */
  function SignedInRedirect(user: Option<Account>): (target: Option<string>)
    ensures user.None? <==> target.None?
    ensures user.Some? && user.value.role == "ngo" ==> target == Some("/ngo/dashboard")
    ensures user.Some? && user.value.role != "ngo" ==> target == Some("/dashboard")
  {
    match user
    case None => None
    case Some(u) => Some(if u.role == "ngo" then "/ngo/dashboard" else "/dashboard")
  }

  /** The page a signed-in user is sent to lets them in. */
  lemma RedirectTargetRenders(user: Account)
    ensures ProtectedRoute.RouteScreen(SignedInRedirect(Some(user)).value, false, Some(user))
      == ProtectedRoute.RenderPage
  {
    assert ProtectedRoute.IsNgoPath("/ngo/dashboard") by { assert "/ngo/dashboard"[..4] == "/ngo"; }
    assert !ProtectedRoute.IsNgoPath("/dashboard") by { assert "/dashboard"[1] != "/ngo"[1]; }
  }
}
