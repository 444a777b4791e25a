/** The confirm-email page (app/auth/confirm-email/page.tsx): a 6-digit code
    form that asks the hook to confirm the sign-up, and a resend button held
    back by a 60-second countdown. The one-second timer is an explicit
    `Tick` step. */
module ConfirmEmail {
  import opened Values
  import opened VerificationCode
  import UseAuth

  /** The cooldown a successful resend starts (page.tsx:92). */
  const ResendCooldownSeconds := 60

  /** One firing of the countdown timer (page.tsx:47-54): a timer runs only
      while the cooldown is positive, and takes one second off it. */
  function AfterTick(cooldown: nat): (r: nat)
    ensures r <= cooldown && cooldown - r <= 1
    ensures r == cooldown <==> cooldown == 0
  {
    if cooldown > 0 then cooldown - 1 else cooldown
  }

  /** The cooldown after `n` timer firings. */
  function AfterTicks(cooldown: nat, n: nat): nat
  {
    if n == 0 then cooldown else AfterTicks(AfterTick(cooldown), n - 1)
  }

  /** The countdown goes down one per tick and then stays at zero. */
  lemma {:induction false} TicksSaturate(cooldown: nat, n: nat)
    ensures AfterTicks(cooldown, n) == if n >= cooldown then 0 else cooldown - n
  {
    if n > 0 {
      TicksSaturate(AfterTick(cooldown), n - 1);
    }
  }

  /** The guard of `handleResendCode` (page.tsx:84-86): neither early
      return fires, and then no countdown timer is running. */
  predicate ResendAllowed(email: string, cooldown: nat)
    ensures ResendAllowed(email, cooldown) <==> !(email == "" || cooldown > 0)
    ensures ResendAllowed(email, cooldown) ==> AfterTick(cooldown) == cooldown
  {
    email != "" && cooldown == 0
  }

  /** The guard of `handleSubmit` (page.tsx:65-71): neither early return
      fires. */
  predicate SubmitAllowed(email: string, code: string)
    ensures SubmitAllowed(email, code) <==> !(email == "" || |code| != CodeLength)
  {
    email != "" && |code| == CodeLength
  }

  /** A code typed into the input lets the form submit exactly when the
      typed text held at least six digits; the code sent is then its first
      six digits. */
  lemma SubmitAfterInput(email: string, raw: string)
    ensures SubmitAllowed(email, Sanitize(raw)) <==> email != "" && |Digits(raw)| >= CodeLength
    ensures SubmitAllowed(email, Sanitize(raw)) ==> Sanitize(raw) == Digits(raw)[..CodeLength]
  {
  }

  /** The resend button's `disabled` (page.tsx:206): enabled exactly when
      nothing is being resent and the handler's guard passes. */
  function ResendDisabled(isResending: bool, cooldown: nat, email: string): (r: bool)
    ensures !r <==> !isResending && ResendAllowed(email, cooldown)
  {
    isResending || cooldown > 0 || email == ""
  }

  /** The verify button's `disabled` (page.tsx:185). It does not look at the
      e-mail; the handler's guard does. */
  function SubmitDisabled(isSubmitting: bool, code: string): (r: bool)
    ensures !r <==> !isSubmitting && |code| == CodeLength
    ensures forall email :: email != "" && !r ==> SubmitAllowed(email, code)
  {
    isSubmitting || |code| != CodeLength
  }

  /** After a successful resend, with no resend in flight, the button stays
      disabled for exactly the first 60 ticks. */
  lemma CooldownWindow(email: string, n: nat)
    requires email != ""
    ensures ResendDisabled(false, AfterTicks(ResendCooldownSeconds, n), email) <==> n < ResendCooldownSeconds
  {
    TicksSaturate(ResendCooldownSeconds, n);
  }

  /** The page's state cells (page.tsx:9-13). */
  datatype ConfirmView = ConfirmView(
    confirmationCode: string,
    isSubmitting: bool,
    isResending: bool,
    resendCooldown: nat,
    email: string)

  class ConfirmEmailPage {
    var confirmationCode: string
    var isSubmitting: bool
    var isResending: bool
    var resendCooldown: nat
    var email: string

    function View(): ConfirmView
      reads this
    {
      ConfirmView(confirmationCode, isSubmitting, isResending, resendCooldown, email)
    }

    constructor ()
      ensures View() == ConfirmView("", false, false, 0, "")
    {
      confirmationCode, isSubmitting, isResending, resendCooldown, email := "", false, false, 0, "";
    }

    /** The query-parameter effect (page.tsx:27-32). `emailParam` is the raw
        `email` parameter and `decoded` its `decodeURIComponent`. */
    method QueryEmailEffect(emailParam: Option<string>, decoded: string)
      modifies this
      ensures View() == if Truthy(emailParam) then old(View()).(email := decoded) else old(View())
    {
      if Truthy(emailParam) {
        email := decoded;
      }
    }

    /** The error effect (page.tsx:40-45): both busy flags drop. */
    method ErrorEffect(error: Option<string>)
      modifies this
      ensures View() == if Truthy(error) then old(View()).(isSubmitting := false, isResending := false) else old(View())
    {
      if Truthy(error) {
        isSubmitting := false;
        isResending := false;
      }
    }

    /** One firing of the countdown timer. */
    method Tick()
      modifies this
      ensures View() == old(View()).(resendCooldown := AfterTick(old(resendCooldown)))
    {
      if resendCooldown > 0 {
        resendCooldown := resendCooldown - 1;
      }
    }

    /** `handleInputChange` (page.tsx:56-60). */
    method HandleInputChange(auth: UseAuth.AuthHook, value: string)
      requires auth.Valid()
      modifies this, auth
      ensures auth.Valid() && auth.state == UseAuth.ErrorDismissed(old(auth.state))
      ensures View() == old(View()).(confirmationCode := Sanitize(value))
    {
      confirmationCode := Sanitize(value);
      if Truthy(auth.state.error) {
        auth.ClearError();
      }
    }

    /** `handleSubmit` (page.tsx:62-81): with no `finally`, `isSubmitting`
        stays set after a success (navigation follows from the hook's
        `isAuthenticated`); the error effect clears it after a failure. */
    method HandleSubmit(auth: UseAuth.AuthHook, outcome: Outcome<UseAuth.StepOutput>, probe: UseAuth.SessionProbe)
      returns (called: bool)
      requires auth.Valid()
      modifies this, auth
      ensures auth.Valid()
      ensures called <==> SubmitAllowed(old(email), old(confirmationCode))
      ensures !called ==> View() == old(View()) && auth.state == old(auth.state)
      ensures called ==>
        && View() == old(View()).(isSubmitting := true)
        && auth.state == UseAuth.AfterStep(old(auth.state), UseAuth.FailureOf(outcome, UseAuth.ConfirmationFailed),
                                           outcome.Ok? && outcome.payload.isComplete, probe)
    {
      if email == "" {
        return false;
      }
      if |confirmationCode| != CodeLength {
        return false;
      }
      called := true;
      isSubmitting := true;
      var _ := auth.ConfirmSignUp(outcome, probe);
    }

    /** `handleResendCode` (page.tsx:83-98): a success starts the cooldown,
        a failure leaves it as it was; `isResending` drops either way. */
    method HandleResendCode(auth: UseAuth.AuthHook, outcome: Outcome<()>) returns (called: bool)
      requires auth.Valid()
      modifies this, auth
      ensures auth.Valid()
      ensures called <==> ResendAllowed(old(email), old(resendCooldown))
      ensures !called ==> View() == old(View()) && auth.state == old(auth.state)
      ensures called ==>
        && View() == old(View()).(isResending := false,
                                  resendCooldown := if outcome.Ok? then ResendCooldownSeconds else old(resendCooldown))
        && auth.state == UseAuth.Settled(old(auth.state), UseAuth.FailureOf(outcome, UseAuth.ResendFailed))
    {
      if email == "" || resendCooldown > 0 {
        return false;
      }
      called := true;
      isResending := true;
      var r := auth.ResendCode(outcome);
      if r.Success? {
        resendCooldown := ResendCooldownSeconds;
      }
      isResending := false;
    }
  }
}
