/** `src/components/layouts/AuthLayout.tsx`: the layout around the login,
    register and forgot-password pages. */
module AuthLayout {
  import opened Common
  import opened Auth

  /** The redirect the layout issues, or `None` when it renders its outlet.
      It reads only the signed-in user, never `loading`. */
  function AuthLayoutRedirect(user: Option<Session>): (r: Option<string>)
    ensures r.None? <==> user.None?
    ensures user.Some? && user.value.role == Admin ==> r == Some("/admin")
    ensures user.Some? && user.value.role != Admin ==> r == Some("/dashboard")
  {
    if user.Some? then Some(if user.value.role == Admin then "/admin" else "/dashboard")
    else None
  }
}
