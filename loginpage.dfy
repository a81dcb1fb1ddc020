/**
 * The decisions of the login page (src/features/login/index.tsx): where a login leads,
 * what a sign-up reports, and when the form may be submitted. The toaster and the
 * router are represented by the outcome values these functions return.
 */
module LoginPage {
  import opened Wrappers
  import opened JsString
  import opened Identity
  import Session

  /** A toaster message. */
  datatype Toast =
    | SuccessToast(title: string, description: Option<string>)
    | ErrorToast(title: string, description: Option<string>)

  /** What a handler does: the toast it shows and the route it navigates to, if any. */
  datatype Outcome = Outcome(toast: Toast, navigateTo: Option<string>)

  const ADMIN_ROUTE := "/admin"
  const DASHBOARD_ROUTE := "/dashboard"

  /** Where a successful login leads. */
  function Destination(u: User): (route: string)
    ensures route == ADMIN_ROUTE || route == DASHBOARD_ROUTE
    ensures route == ADMIN_ROUTE <==> ADMIN in u.roles
  {
    if ADMIN in u.roles then ADMIN_ROUTE
    else if USER in u.roles then DASHBOARD_ROUTE
    else DASHBOARD_ROUTE  // default when the roles are not as expected
  }

  /** `handleLogin`, given what `auth.login` returned. */
  function LoginOutcome(result: Option<User>): (o: Outcome)
    ensures result.Some? ==> o.toast.SuccessToast? && o.navigateTo == Some(Destination(result.value))
    ensures result.None? ==> o.toast.ErrorToast? && o.navigateTo.None?
  {
    match result
    case Some(u) => Outcome(SuccessToast("Login Successful", None), Some(Destination(u)))
    case None =>
      Outcome(ErrorToast("Login Failed", Some("Please check your email and password.")), None)
  }

  /** `handleSignUp`, given what `auth.signUp` returned: it never navigates. */
  function SignUpOutcome(result: Option<User>): (o: Outcome)
    ensures o.navigateTo.None?
    ensures o.toast.SuccessToast? <==> result.Some?
  {
    match result
    case Some(_) =>
      Outcome(SuccessToast("Sign Up Successful!",
        Some("Please check your email for a confirmation link if required. You can then login.")), None)
    case None =>
      Outcome(ErrorToast("Sign Up Failed",
        Some("Could not create your account. The email might be in use or password too weak.")), None)
  }

  /** `disabled={!email || !password}` on the Login and Sign Up buttons. */
  function ButtonsDisabled(email: string, password: string): (disabled: bool)
    ensures disabled <==> email == "" || password == ""
  {
    !Truthy(email) || !Truthy(password)
  }

  /** `onEnterPress`: whether a key press in either field starts a login. */
  function EnterTriggersLogin(key: string, email: string, password: string): (login: bool)
    ensures login ==> key == "Enter" && email != "" && password != ""
  {
    if key == "Enter" then Truthy(email) && Truthy(password) else false
  }

  // ----- Properties -----

  /** Admins go to /admin even if they are also users; everyone else goes to /dashboard. */
  lemma LoginDestinations(u: User)
    ensures ADMIN in u.roles ==> LoginOutcome(Some(u)).navigateTo == Some(ADMIN_ROUTE)
    ensures ADMIN !in u.roles ==> LoginOutcome(Some(u)).navigateTo == Some(DASHBOARD_ROUTE)
  {
  }

  /** Enter starts a login exactly when the Login button would be enabled. */
  lemma EnterMatchesButton(key: string, email: string, password: string)
    ensures EnterTriggersLogin(key, email, password) <==> key == "Enter" && !ButtonsDisabled(email, password)
  {
  }

  /**
   * A login started from the enabled form always reaches the backend: the form's password
   * is never the missing one that `login` rejects.
   */
  lemma EnabledFormReachesBackend(email: string, password: string,
                                  response: Session.SignInResponse, now: int)
    requires !ButtonsDisabled(email, password)
    ensures Session.Login(Some(password), response, now) == Session.SignInResult(response, now)
  {
  }

  /**
   * End to end: a user mapped from a record whose roles contain "admin" is sent to /admin
   * by a successful login.
   */
  lemma {:induction false} AdminRecordLandsOnAdmin(raw: RawUser, password: string, now: int)
    requires password != ""
    requires RolesHint(raw).Some? && RoleValue(ADMIN) in RolesHint(raw).value
    ensures var result := Session.Login(Some(password), Session.SignInData(Some(raw), None), now);
      LoginOutcome(result).navigateTo == Some(ADMIN_ROUTE)
  {
    var values := RolesHint(raw).value;
    FilterRolesCount(values, ADMIN);
    assert multiset(values)[RoleValue(ADMIN)] > 0;
    assert ADMIN in multiset(FilterRoles(values));
    RolesFallback(raw);
    ParseRoleValue(ADMIN);
    assert !NoValidRole(values) by {
      var i :| 0 <= i < |values| && values[i] == RoleValue(ADMIN);
      assert ParseRole(values[i]).Some?;
    }
  }
}
