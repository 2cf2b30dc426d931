/**
  The route guard: a pure decision on the context's `isAuthenticated`.
  Denied visitors get a replacing redirect to `/login` that remembers the
  location they asked for; allowed ones see the nested view unchanged.
 */
module ProtectedRoute {
  import opened Wrappers
  import opened Router
  import opened Effects
  import AuthContext

  const LoginPath := "/login"

  /** A React element passed as `children`; opaque. */
  datatype Element = Element(name: string)

  /** What an allowed visit renders: the given children, or the nested route's outlet. */
  datatype Rendered = Children(element: Element) | Outlet

  datatype Decision = Allowed(render: Rendered) | Denied(redirect: Effect)

  /** The redirect a denied visit performs: to the login path, with `from` set to the denied location. */
  function LoginRedirect(location: Location): (e: Effect)
    ensures e.Navigate? && e.replace
    ensures e.to.pathname == LoginPath && e.to.query == []
    ensures e.to.state.from == Some(location) && !e.to.state.validationSuccess
  {
    Navigate(Location(LoginPath, [], NavState(Some(location), false)), true)
  }

  function Guard(ctx: AuthContext.ContextValue, location: Location, children: Option<Element>): (d: Decision)
    ensures d.Allowed? <==> ctx.isAuthenticated
    ensures d.Denied? ==> d.redirect == LoginRedirect(location)
    ensures d.Allowed? && children.Some? ==> d.render == Children(children.value)
    ensures d.Allowed? && children.None? ==> d.render == Outlet
  {
    if !ctx.isAuthenticated then Denied(LoginRedirect(location))
    else match children
      case Some(c) => Allowed(Children(c))
      case None => Allowed(Outlet)
  }

  /** Only `isAuthenticated` matters: token, user and callback do not change the decision. */
  lemma GuardReadsOnlyAuthentication(a: AuthContext.ContextValue, b: AuthContext.ContextValue,
                                     location: Location, children: Option<Element>)
    requires a.isAuthenticated == b.isAuthenticated
    ensures Guard(a, location, children) == Guard(b, location, children)
  {
  }

  /** Over a session, the guard admits exactly the sessions with a truthy token. */
  lemma GuardAdmitsTruthyToken(s: AuthContext.Session, location: Location, children: Option<Element>)
    ensures Guard(AuthContext.Value(s), location, children).Allowed? <==> (s.token.Some? && s.token.value != "")
  {
  }
}
