/** `src/pages/NotFound.tsx`: the 404 page and its "Return to home" link. */
module NotFound {
  import opened Common
  import opened Auth
  import AuthLayout

  /** The link target `homePath`. */
  function HomePath(user: Option<Session>): (p: string)
    ensures p == "/login" || p == "/admin" || p == "/dashboard"
    ensures p == "/login" <==> user.None?
    ensures p == "/admin" <==> user.Some? && user.value.role == Admin
  {
    if user.Some? then (if user.value.role == Admin then "/admin" else "/dashboard") else "/login"
  }

  /** The auth layout sends every signed-in user to exactly the page the
      404 page links to as home. */
  lemma AuthLayoutAgreesWithHomePath(user: Option<Session>)
    ensures user.Some? <==> AuthLayout.AuthLayoutRedirect(user) == Some(HomePath(user))
  {
  }
}
