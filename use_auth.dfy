/** The session-state hook of hooks/useAuth.ts.

    The hook keeps one `AuthState` record in a single state cell and every
    operation rewrites it: `setLoading(true)`, `setError(null)`, one awaited
    identity-provider call, then a full or partial reassignment in the
    `try`, `catch` and `finally` blocks. Here the cell is the one field of
    class `AuthHook`, each provider call is an `Outcome` parameter, and each
    operation runs as one sequential step. */
module UseAuth {
  import opened Values

  /** The signed-in identity (hooks/useAuth.ts:15-21). `attributes` stands
      for the provider's attribute record, every value a string. */
  datatype User = User(
    userId: string,
    username: string,
    email: string,
    emailVerified: bool,
    attributes: map<string, string>)

  /** The hook's state record (hooks/useAuth.ts:23-28). */
  datatype AuthState = AuthState(
    user: Option<User>,
    isLoading: bool,
    isAuthenticated: bool,
    error: Option<string>)

  /** What `getCurrentUser` reports; `loginId` is "" when the sign-in
      details carry none. */
  datatype CurrentUser = CurrentUser(userId: string, username: string, loginId: string)

  /** What `fetchAuthSession` reports: only whether it holds tokens matters. */
  datatype Session = Session(hasTokens: bool)

  /** The three provider queries made by `checkAuthState`, in call order.
      `currentUser` resolving with `None` stands for a falsy user. */
  datatype SessionProbe = SessionProbe(
    currentUser: Outcome<Option<CurrentUser>>,
    session: Outcome<Session>,
    attributes: Outcome<map<string, string>>)

  /** Sign-up input (hooks/useAuth.ts:30-34); an absent `name` is "". */
  datatype SignUpData = SignUpData(email: string, password: string, name: string)

  /** The arguments `handleSignUp` passes to the provider's `signUp`. */
  datatype SignUpRequest = SignUpRequest(username: string, password: string, email: string, name: string)

  datatype SignUpOutput = SignUpOutput(isSignUpComplete: bool, userId: string, nextStep: string)

  /** `{ success: true, userId, nextStep, requiresConfirmation? }`. */
  datatype SignUpResponse = SignUpResponse(userId: string, nextStep: string, requiresConfirmation: bool)

  /** What `signIn` (`isSignedIn`) and `confirmSignUp` (`isSignUpComplete`)
      resolve with. */
  datatype StepOutput = StepOutput(isComplete: bool, nextStep: string)

  /** `{ success: true, nextStep, requiresAdditionalSteps? }`. */
  datatype StepResponse = StepResponse(nextStep: string, requiresAdditionalSteps: bool)

  const SignUpFailed := "Sign up failed"
  const SignInFailed := "Sign in failed"
  const SignOutFailed := "Sign out failed"
  const ConfirmationFailed := "Email confirmation failed"
  const ResendFailed := "Failed to resend code"
  const ResetFailed := "Password reset failed"
  const ConfirmResetFailed := "Password confirmation failed"

  /** The invariant the record is meant to keep: authenticated exactly when
      a user is present. */
  predicate Consistent(s: AuthState)
  {
    s.isAuthenticated <==> s.user.Some?
  }

  /** The state on mount (hooks/useAuth.ts:52-57). */
  const Initial := AuthState(None, true, false, None)

  /** The resolved, signed-out state written by `checkAuthState` and by a
      successful sign-out. */
  const SignedOut := AuthState(None, false, false, None)

  function Authenticated(u: User): AuthState
  {
    AuthState(Some(u), false, true, None)
  }

  /** A property of the attribute record, "" when it is missing. */
  function Lookup(attrs: map<string, string>, key: string): string
  {
    if key in attrs then attrs[key] else ""
  }

  /** The user record built when the attributes were fetched
      (hooks/useAuth.ts:76-82). */
  function BuildUser(cu: CurrentUser, attrs: map<string, string>): (u: User)
    ensures u.userId == cu.userId && u.username == cu.username && u.attributes == attrs
    ensures Lookup(attrs, "email") != "" ==> u.email == Lookup(attrs, "email")
    ensures Lookup(attrs, "email") == "" ==> u.email == cu.loginId
    ensures u.emailVerified <==> "email_verified" in attrs && attrs["email_verified"] == "true"
  {
    var e := Lookup(attrs, "email");
    assert [e, cu.loginId, ""][1..] == [cu.loginId, ""];
    FirstNonEmptyPair(cu.loginId, "");
    User(cu.userId, cu.username,
         FirstNonEmpty([e, cu.loginId, ""]),
         Lookup(attrs, "email_verified") == "true",
         attrs)
  }

  /** The user record built when fetching the attributes threw
      (hooks/useAuth.ts:92-98). */
  function FallbackUser(cu: CurrentUser): (u: User)
    ensures u.userId == cu.userId && u.username == cu.username
    ensures u.email == cu.loginId && !u.emailVerified && u.attributes == map[]
  {
    FirstNonEmptyPair(cu.loginId, "");
    User(cu.userId, cu.username, FirstNonEmpty([cu.loginId, ""]), false, map[])
  }

  /** Whether the probe finds a user holding session tokens. */
  predicate SignedInProbe(p: SessionProbe)
  {
    p.currentUser.Ok? && p.currentUser.payload.Some? && p.session.Ok? && p.session.payload.hasTokens
  }

  /** The state `checkAuthState` leaves (hooks/useAuth.ts:67-123). */
  function CheckedState(p: SessionProbe): (r: AuthState)
    ensures Consistent(r)
    ensures !r.isLoading && r.error == None
    ensures r.isAuthenticated <==> SignedInProbe(p)
    ensures r.isAuthenticated ==>
      r.user.value.userId == p.currentUser.payload.value.userId &&
      r.user.value.username == p.currentUser.payload.value.username
  {
    match p.currentUser
    case Err(_) => SignedOut
    case Ok(user) =>
      match p.session
      case Err(_) => SignedOut
      case Ok(session) =>
        if user.Some? && session.hasTokens then
          match p.attributes
          case Ok(attrs) => Authenticated(BuildUser(user.value, attrs))
          case Err(_) => Authenticated(FallbackUser(user.value))
        else SignedOut
  }

  /** The e-mail and verified-flag fallbacks of a signed-in probe. */
  lemma CheckedUserFields(p: SessionProbe)
    requires SignedInProbe(p)
    ensures CheckedState(p).user.Some?
    ensures var u := CheckedState(p).user.value;
            var loginId := p.currentUser.payload.value.loginId;
            match p.attributes
            case Ok(attrs) =>
              && (Lookup(attrs, "email") != "" ==> u.email == Lookup(attrs, "email"))
              && (Lookup(attrs, "email") == "" ==> u.email == loginId)
              && (u.emailVerified <==> "email_verified" in attrs && attrs["email_verified"] == "true")
              && u.attributes == attrs
            case Err(_) =>
              u.email == loginId && !u.emailVerified && u.attributes == map[]
  {
  }

  /** `error.message || fallback`: the message stored and rethrown. */
  function ThrownMessage(message: string, fallback: string): (r: string)
    requires fallback != ""
    ensures r != ""
    ensures message != "" ==> r == message
    ensures message == "" ==> r == fallback
  {
    FirstNonEmptyPair(message, fallback);
    FirstNonEmpty([message, fallback])
  }

  /** The message an operation reports for a provider outcome: none on
      success, the thrown message on failure. */
  function FailureOf<T>(o: Outcome<T>, fallback: string): (r: Option<string>)
    requires fallback != ""
    ensures r.None? <==> o.Ok?
    ensures r.Some? ==> r.value == ThrownMessage(o.message, fallback)
  {
    match o
    case Ok(_) => None
    case Err(m) => Some(ThrownMessage(m, fallback))
  }

  /** The state after an operation whose `finally` runs `setLoading(false)`
      and that did not re-query the session. */
  function Settled(s: AuthState, error: Option<string>): (r: AuthState)
    ensures r.user == s.user && r.isAuthenticated == s.isAuthenticated
    ensures !r.isLoading && r.error == error
  {
    s.(isLoading := false, error := error)
  }

  /** The state after sign-up, sign-in or confirm-sign-up: on failure the
      session is untouched and the message stored; on a completed step the
      session is re-queried; on an incomplete step only the flags reset. */
  function AfterStep(s: AuthState, failure: Option<string>, complete: bool, probe: SessionProbe): (r: AuthState)
    ensures Consistent(s) ==> Consistent(r)
    ensures !r.isLoading && r.error == failure
    ensures failure.Some? || !complete ==> r.user == s.user && r.isAuthenticated == s.isAuthenticated
    ensures failure.None? && complete ==> r == CheckedState(probe)
  {
    if failure.Some? then Settled(s, failure)
    else if complete then CheckedState(probe).(isLoading := false)
    else Settled(s, None)
  }

  /** The state after sign-out (hooks/useAuth.ts:185-201). With no `finally`,
      a failed sign-out leaves `isLoading` set. */
  function AfterSignOut(s: AuthState, failure: Option<string>): (r: AuthState)
    ensures Consistent(s) ==> Consistent(r)
    ensures r.error == failure
    ensures failure.None? ==> r == SignedOut
    ensures failure.Some? ==> r.isLoading && r.user == s.user && r.isAuthenticated == s.isAuthenticated
  {
    if failure.None? then SignedOut
    else s.(isLoading := true, error := failure)
  }

  /** What every form field's change handler does to the hook after storing
      its value: `if (error) clearError()`. */
  function ErrorDismissed(s: AuthState): (r: AuthState)
    ensures r.user == s.user && r.isLoading == s.isLoading && r.isAuthenticated == s.isAuthenticated
    ensures !Truthy(r.error)
    ensures Truthy(s.error) ==> r.error == None
    ensures !Truthy(s.error) ==> r == s
  {
    if Truthy(s.error) then s.(error := None) else s
  }

  /** `email.split("@")[0]`: the text before the first '@', or all of it. */
  function EmailLocalPart(email: string): (r: string)
    ensures r <= email
    ensures forall i :: 0 <= i < |r| ==> r[i] != '@'
    ensures |r| < |email| ==> email[|r|] == '@'
  {
    if email == [] || email[0] == '@' then []
    else [email[0]] + EmailLocalPart(email[1..])
  }

  /** The arguments of the provider's `signUp` (hooks/useAuth.ts:134-143). */
  function SignUpRequestFor(data: SignUpData): (req: SignUpRequest)
    ensures req.username == data.email && req.email == data.email && req.password == data.password
    ensures data.name != "" ==> req.name == data.name
    ensures data.name == "" ==> req.name == EmailLocalPart(data.email)
  {
    FirstNonEmptyPair(data.name, EmailLocalPart(data.email));
    SignUpRequest(data.email, data.password, data.email, FirstNonEmpty([data.name, EmailLocalPart(data.email)]))
  }

  /** The hook: one state cell and the operations that rewrite it. */
  class AuthHook {
    var state: AuthState

    ghost predicate Valid()
      reads this
    {
      Consistent(state)
    }

    constructor ()
      ensures Valid() && state == Initial
    {
      state := Initial;
    }

    /** `setError` (hooks/useAuth.ts:59-61) changes only `error`. */
    method SetError(error: Option<string>)
      modifies this
      ensures state == old(state).(error := error)
    {
      state := state.(error := error);
    }

    /** `setLoading` (hooks/useAuth.ts:63-65) changes only `isLoading`. */
    method SetLoading(isLoading: bool)
      modifies this
      ensures state == old(state).(isLoading := isLoading)
    {
      state := state.(isLoading := isLoading);
    }

    /** `checkAuthState`, also exported as `refreshAuth`: every path ends in a
        full assignment, and no path is an error state. */
    method CheckAuthState(probe: SessionProbe)
      modifies this
      ensures Valid() && state == CheckedState(probe)
    {
      SetLoading(true);
      match probe.currentUser {
        case Err(_) =>
          state := SignedOut;
        case Ok(user) =>
          match probe.session {
            case Err(_) =>
              state := SignedOut;
            case Ok(session) =>
              if user.Some? && session.hasTokens {
                match probe.attributes {
                  case Ok(attrs) =>
                    state := AuthState(Some(BuildUser(user.value, attrs)), false, true, None);
                  case Err(_) =>
                    state := AuthState(Some(FallbackUser(user.value)), false, true, None);
                }
              } else {
                state := SignedOut;
              }
          }
      }
    }

    /** `handleSignUp` (hooks/useAuth.ts:129-158). */
    method SignUp(data: SignUpData, outcome: Outcome<SignUpOutput>, probe: SessionProbe)
      returns (request: SignUpRequest, r: Result<SignUpResponse, string>)
      requires Valid()
      modifies this
      ensures Valid()
      ensures request == SignUpRequestFor(data)
      ensures state == AfterStep(old(state), FailureOf(outcome, SignUpFailed),
                                 outcome.Ok? && outcome.payload.isSignUpComplete, probe)
      ensures r.Failure? <==> outcome.Err?
      ensures r.Failure? ==> state.error == Some(r.error)
      ensures r.Success? ==>
        r.value == SignUpResponse(outcome.payload.userId, outcome.payload.nextStep, !outcome.payload.isSignUpComplete)
    {
      SetLoading(true);
      SetError(None);
      request := SignUpRequestFor(data);
      match outcome {
        case Err(m) =>
          var message := ThrownMessage(m, SignUpFailed);
          SetError(Some(message));
          r := Failure(message);
        case Ok(out) =>
          if out.isSignUpComplete {
            CheckAuthState(probe);
            r := Success(SignUpResponse(out.userId, out.nextStep, false));
          } else {
            r := Success(SignUpResponse(out.userId, out.nextStep, true));
          }
      }
      SetLoading(false);
    }

    /** `handleSignIn` (hooks/useAuth.ts:160-183). */
    method SignIn(outcome: Outcome<StepOutput>, probe: SessionProbe) returns (r: Result<StepResponse, string>)
      requires Valid()
      modifies this
      ensures Valid()
      ensures state == AfterStep(old(state), FailureOf(outcome, SignInFailed),
                                 outcome.Ok? && outcome.payload.isComplete, probe)
      ensures r.Failure? <==> outcome.Err?
      ensures r.Failure? ==> state.error == Some(r.error)
      ensures r.Success? ==> r.value == StepResponse(outcome.payload.nextStep, !outcome.payload.isComplete)
    {
      SetLoading(true);
      SetError(None);
      match outcome {
        case Err(m) =>
          var message := ThrownMessage(m, SignInFailed);
          SetError(Some(message));
          r := Failure(message);
        case Ok(out) =>
          if out.isComplete {
            CheckAuthState(probe);
            r := Success(StepResponse(out.nextStep, false));
          } else {
            r := Success(StepResponse(out.nextStep, true));
          }
      }
      SetLoading(false);
    }

    /** `handleSignOut` (hooks/useAuth.ts:185-201): no `finally`. */
    method SignOut(outcome: Outcome<()>) returns (r: Result<(), string>)
      requires Valid()
      modifies this
      ensures Valid()
      ensures state == AfterSignOut(old(state), FailureOf(outcome, SignOutFailed))
      ensures r.Failure? <==> outcome.Err?
      ensures r.Failure? ==> state.error == Some(r.error)
    {
      SetLoading(true);
      SetError(None);
      match outcome {
        case Err(m) =>
          var message := ThrownMessage(m, SignOutFailed);
          SetError(Some(message));
          r := Failure(message);
        case Ok(_) =>
          state := SignedOut;
          r := Success(());
      }
    }

    /** `handleConfirmSignUp` (hooks/useAuth.ts:203-226). */
    method ConfirmSignUp(outcome: Outcome<StepOutput>, probe: SessionProbe) returns (r: Result<StepResponse, string>)
      requires Valid()
      modifies this
      ensures Valid()
      ensures state == AfterStep(old(state), FailureOf(outcome, ConfirmationFailed),
                                 outcome.Ok? && outcome.payload.isComplete, probe)
      ensures r.Failure? <==> outcome.Err?
      ensures r.Failure? ==> state.error == Some(r.error)
      ensures r.Success? ==> r.value == StepResponse(outcome.payload.nextStep, !outcome.payload.isComplete)
    {
      SetLoading(true);
      SetError(None);
      match outcome {
        case Err(m) =>
          var message := ThrownMessage(m, ConfirmationFailed);
          SetError(Some(message));
          r := Failure(message);
        case Ok(out) =>
          if out.isComplete {
            CheckAuthState(probe);
            r := Success(StepResponse(out.nextStep, false));
          } else {
            r := Success(StepResponse(out.nextStep, true));
          }
      }
      SetLoading(false);
    }

    /** `handleResendCode` (hooks/useAuth.ts:228-241). */
    method ResendCode(outcome: Outcome<()>) returns (r: Result<(), string>)
      requires Valid()
      modifies this
      ensures Valid()
      ensures state == Settled(old(state), FailureOf(outcome, ResendFailed))
      ensures r.Failure? <==> outcome.Err?
      ensures r.Failure? ==> state.error == Some(r.error)
    {
      SetLoading(true);
      SetError(None);
      match outcome {
        case Err(m) =>
          var message := ThrownMessage(m, ResendFailed);
          SetError(Some(message));
          r := Failure(message);
        case Ok(_) =>
          r := Success(());
      }
      SetLoading(false);
    }

    /** `handleResetPassword` (hooks/useAuth.ts:243-256); the success value
        is the provider's `nextStep`. */
    method ResetPassword(outcome: Outcome<string>) returns (r: Result<string, string>)
      requires Valid()
      modifies this
      ensures Valid()
      ensures state == Settled(old(state), FailureOf(outcome, ResetFailed))
      ensures r.Failure? <==> outcome.Err?
      ensures r.Failure? ==> state.error == Some(r.error)
      ensures r.Success? ==> r.value == outcome.payload
    {
      SetLoading(true);
      SetError(None);
      match outcome {
        case Err(m) =>
          var message := ThrownMessage(m, ResetFailed);
          SetError(Some(message));
          r := Failure(message);
        case Ok(nextStep) =>
          r := Success(nextStep);
      }
      SetLoading(false);
    }

    /** `handleConfirmResetPassword` (hooks/useAuth.ts:258-275). */
    method ConfirmResetPassword(outcome: Outcome<()>) returns (r: Result<(), string>)
      requires Valid()
      modifies this
      ensures Valid()
      ensures state == Settled(old(state), FailureOf(outcome, ConfirmResetFailed))
      ensures r.Failure? <==> outcome.Err?
      ensures r.Failure? ==> state.error == Some(r.error)
    {
      SetLoading(true);
      SetError(None);
      match outcome {
        case Err(m) =>
          var message := ThrownMessage(m, ConfirmResetFailed);
          SetError(Some(message));
          r := Failure(message);
        case Ok(_) =>
          r := Success(());
      }
      SetLoading(false);
    }

    /** `clearError` (hooks/useAuth.ts:286). */
    method ClearError()
      requires Valid()
      modifies this
      ensures Valid() && state == old(state).(error := None)
    {
      SetError(None);
    }
  }
}
