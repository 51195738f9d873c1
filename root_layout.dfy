/** The mobile app's root navigator: once authentication has loaded, it
    keeps signed-in users in the tab screens and signed-out users in the
    authentication screens. */
module RootLayout {
  import opened Wrappers

  const AuthGroup := "(auth)"
  const TabsGroup := "(tabs)"

  /** The two places the navigator replaces the route with. */
  datatype Route = Tabs | SignIn

  /** The path passed to `router.replace`. */
  function RoutePath(r: Route): string
  {
    match r
    case Tabs => "/(tabs)"
    case SignIn => "/(auth)/sign-in"
  }

  /** The first segment of that path: the group the user ends up in. */
  function RouteGroup(r: Route): (g: string)
    ensures |g| + 1 <= |RoutePath(r)| && RoutePath(r)[1..|g| + 1] == g
  {
    match r
    case Tabs => TabsGroup
    case SignIn => AuthGroup
  }

  /** The effect of `RootLayoutNav`: the route it replaces the current one
      with, if any, given whether authentication has loaded, whether the
      user is signed in and the first route segment (absent at the root).
      Nothing happens before loading; after it, a redirect happens exactly
      when the user is outside the group that fits the sign-in state, and
      it leads into that group. */
  function Redirect(isLoaded: bool, isSignedIn: bool, segment: Option<string>): (r: Option<Route>)
    ensures !isLoaded ==> r.None?
    ensures isLoaded && isSignedIn ==> (r.None? <==> segment == Some(TabsGroup))
    ensures isLoaded && !isSignedIn ==> (r.None? <==> segment == Some(AuthGroup))
    ensures r.Some? ==> r.value == if isSignedIn then Tabs else SignIn
  {
    if !isLoaded then None
    else
      var inAuthGroup := segment == Some(AuthGroup);
      var inTabsGroup := segment == Some(TabsGroup);
      if isSignedIn && inAuthGroup then Some(Tabs)
      else if !isSignedIn && inTabsGroup then Some(SignIn)
      else if !isSignedIn && !inAuthGroup && !inTabsGroup then Some(SignIn)
      else if isSignedIn && !inAuthGroup && !inTabsGroup then Some(Tabs)
      else None
  }

  /** Following a redirect settles navigation: in the group it leads to,
      the effect does nothing more. */
  lemma RedirectSettles(isSignedIn: bool, segment: Option<string>)
    requires Redirect(true, isSignedIn, segment).Some?
    ensures Redirect(true, isSignedIn, Some(RouteGroup(Redirect(true, isSignedIn, segment).value))).None?
  {
  }
}
