/** The guard of src/components/ProtectedRoute.jsx: a spinner while the session
    is being checked, a redirect to the login page for a visitor, the wrapped
    page otherwise. */
module ProtectedRoute {

  /** A router location; only the path matters here. */
  datatype Location = Location(pathname: string)

  /** What the guard renders in place of its children. */
  datatype Guarded<C> =
    | Spinner
    | RedirectTo(to: string, from: Location, replace: bool)
    | Render(children: C)

  const LoginPath := "/login"

  /** The guard's decision. */
  function Protect<C>(loading: bool, authenticated: bool, location: Location, children: C): (r: Guarded<C>)
    ensures r.Spinner? <==> loading
    ensures r.RedirectTo? <==> !loading && !authenticated
    ensures r.Render? <==> !loading && authenticated
    ensures r.RedirectTo? ==> r.to == LoginPath && r.from == location && r.replace
    ensures r.Render? ==> r.children == children
  {
    if loading then Spinner
    else if !authenticated then RedirectTo(LoginPath, location, true)
    else Render(children)
  }
}
