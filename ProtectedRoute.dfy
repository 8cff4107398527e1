/** The route guard (src/components/ProtectedRoute.tsx). */
module ProtectedRoute {
  import opened Wrappers
  import opened AuthContext

  /** What the guard renders: a loading message, a `<Navigate>` or the element. */
  datatype RouteOutcome<E, L> =
    | LoadingMessage
    | Redirect(to: string, replace: bool, fromLocation: L)
    | RenderElement(element: E)

  const LoginPath := "/login"

  /** `ProtectedRoute({ element })` given the session (`currentUser`, `loading`)
      and the current location. The loading check comes first: while loading,
      the user is not consulted. */
  function Guard<E, L>(currentUser: Option<User>, loading: bool, location: L, element: E): (o: RouteOutcome<E, L>)
    ensures o.LoadingMessage? <==> loading
    ensures o.Redirect? <==> !loading && currentUser.None?
    ensures o.Redirect? ==> o.to == LoginPath && o.replace && o.fromLocation == location
    ensures o.RenderElement? <==> !loading && currentUser.Some?
    ensures o.RenderElement? ==> o.element == element
  {
    if loading then LoadingMessage
    else if currentUser.None? then Redirect(LoginPath, true, location)
    else RenderElement(element)
  }

  /** Beneath an `AuthProvider` the guard is only ever rendered once loading is
      over, so it never shows its own loading message there. */
  lemma GuardUnderProviderNeverLoads<E, L>(p: AuthProvider, location: L, element: E)
    requires p.Valid() && p.RendersChildren()
    ensures !Guard(p.currentUser, p.loading, location, element).LoadingMessage?
    ensures Guard(p.currentUser, p.loading, location, element) ==
      if p.currentUser.Some? then RenderElement(element) else Redirect(LoginPath, true, location)
  {
  }
}
