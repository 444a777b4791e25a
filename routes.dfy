/** Navigation targets the pages hand to the router. */
module Routes {
  import opened Values

  const Dashboard := "/dashboard"
  const Login := "/auth/login"
  const LoginAfterReset := "/auth/login?message=password-reset-success"

  /** The effect every auth form runs on `isAuthenticated`
      (app/auth/login/page.tsx:21-25 and the same effect in the
      confirm-email and forgot-password pages): push `/dashboard` exactly
      when signed in. */
  function DashboardRedirect(isAuthenticated: bool): (target: Option<string>)
    ensures target.Some? <==> isAuthenticated
    ensures target.Some? ==> target.value == Dashboard
  {
    if isAuthenticated then Some(Dashboard) else None
  }
}
