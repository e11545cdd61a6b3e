/** `ProtectedRoute`: what a guarded page shows for a given loading flag,
    signed-in user and route path. */
module ProtectedRoute {
  import opened JsText
  import opened Browser

  datatype Screen = Spinner | RedirectTo(target: string) | RenderPage

  predicate IsNgoPath(path: string) {
    StartsWith(path, "/ngo")
  }

  /** The decision made each time the route renders. */
  function RouteScreen(path: string, isLoading: bool, user: Option<Account>): (s: Screen)
    ensures isLoading ==> s == Spinner
    ensures !isLoading && user.None? ==> s == RedirectTo("/auth")
    ensures !isLoading && user.Some? && IsNgoPath(path) && user.value.role != "ngo" ==>
      s == RedirectTo("/dashboard")
    ensures !isLoading && user.Some? && !IsNgoPath(path) && user.value.role == "ngo" && path != "/" ==>
      s == RedirectTo("/ngo/dashboard")
    ensures s == RenderPage <==>
      && !isLoading && user.Some?
      && (if IsNgoPath(path) then user.value.role == "ngo" else user.value.role != "ngo" || path == "/")
  {
    if isLoading then Spinner
    else if user.None? then RedirectTo("/auth")
    else if IsNgoPath(path) && user.value.role != "ngo" then RedirectTo("/dashboard")
    else if !IsNgoPath(path) && user.value.role == "ngo" && path != "/" then RedirectTo("/ngo/dashboard")
    else RenderPage
  }

  /** A signed-in user is never redirected twice: wherever the guard sends
      them, the guard on that path renders the page. */
  lemma RedirectsSettle(path: string, user: Account)
    ensures RouteScreen(path, false, Some(user)).RedirectTo? ==>
      RouteScreen(RouteScreen(path, false, Some(user)).target, false, Some(user)) == RenderPage
  {
    assert IsNgoPath("/ngo/dashboard") by { assert "/ngo/dashboard"[..4] == "/ngo"; }
    assert !IsNgoPath("/dashboard") by { assert "/dashboard"[1] != "/ngo"[1]; }
  }
}
