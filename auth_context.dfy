/** The context provider and route guard of lib/auth-context.tsx. The
    provider hands the hook's state to the page tree and configures the
    identity provider once on mount; `withAuth` wraps a page and decides,
    from `isLoading` and `isAuthenticated` alone, what it shows. */
module AuthContext {
  import opened Values
  import UseAuth
  import Routes

  /** What a page wrapped by `withAuth` yields: the loading spinner, nothing
      (with the redirect it starts, if any), or the page with its props. */
  datatype GuardView<P> = Spinner | Blank(redirect: Option<string>) | Render(props: P)

  /** The guard's choice (lib/auth-context.tsx:64-87). `hasWindow` is the
      `typeof window !== "undefined"` test: outside a browser nothing is
      redirected. */
  function Guard<P>(isLoading: bool, isAuthenticated: bool, hasWindow: bool, props: P): (v: GuardView<P>)
    ensures isLoading ==> v == Spinner
    ensures !isLoading && !isAuthenticated ==> v == Blank(if hasWindow then Some(Routes.Login) else None)
    ensures !isLoading && isAuthenticated ==> v == Render(props)
  {
    if isLoading then Spinner
    else if !isAuthenticated then
      (if hasWindow then Blank(Some(Routes.Login)) else Blank(None))
    else Render(props)
  }

  /** On a consistent hook state the wrapped page is shown exactly when the
      check has finished and a user is present. */
  lemma GuardRendersOnlyWithUser<P>(s: UseAuth.AuthState, hasWindow: bool, props: P)
    requires UseAuth.Consistent(s)
    ensures Guard(s.isLoading, s.isAuthenticated, hasWindow, props).Render? <==> !s.isLoading && s.user.Some?
  {
  }

  /** Once `checkAuthState` has run the spinner is gone, and the page is shown
      exactly when the provider reports a user with tokens. */
  lemma GuardAfterCheck<P>(probe: UseAuth.SessionProbe, hasWindow: bool, props: P)
    ensures var s := UseAuth.CheckedState(probe);
            && Guard(s.isLoading, s.isAuthenticated, hasWindow, props) != Spinner
            && (Guard(s.isLoading, s.isAuthenticated, hasWindow, props).Render? <==> UseAuth.SignedInProbe(probe))
  {
  }

  const MissingProvider := "useAuthContext must be used within an AuthProvider"

  /** `useAuthContext` (lib/auth-context.tsx:52-58): the provider's value, or
      the error it throws outside a provider. */
  function UseAuthContext<C>(context: Option<C>): (r: Result<C, string>)
    ensures r.Failure? <==> context.None?
    ensures r.Success? ==> r.value == context.value
    ensures r.Failure? ==> r.error == MissingProvider
  {
    match context
    case None => Failure(MissingProvider)
    case Some(c) => Success(c)
  }

  /** `withAuth(${WrappedComponent.displayName || WrappedComponent.name})`
      (lib/auth-context.tsx:89); a missing name is "". */
  function WithAuthDisplayName(displayName: string, name: string): (r: string)
    ensures |r| >= 10 && r[..9] == "withAuth(" && r[|r| - 1] == ')'
    ensures displayName != "" ==> r[9..|r| - 1] == displayName
    ensures displayName == "" ==> r[9..|r| - 1] == name
  {
    FirstNonEmptyPair(displayName, name);
    var inner := FirstNonEmpty([displayName, name]);
    var r := "withAuth(" + inner + ")";
    assert r[9..|r| - 1] == inner;
    r
  }

  /** The provider's mount effect (lib/auth-context.tsx:36-41): how many
      times it configures the identity provider, given what
      `validateAuthConfig` returned. */
  function ConfigureCalls(configValid: bool): (n: nat)
    ensures n <= 1
    ensures n == 1 <==> configValid
  {
    if configValid then 1 else 0
  }
}
