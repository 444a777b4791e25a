/** The forgot-password page (app/auth/forgot-password/page.tsx): a two-stage
    form. The first stage asks the hook to send a reset code; the second
    takes the code and a new password, checked against five composition
    rules, and asks the hook to confirm the reset. */
module ForgotPassword {
  import opened Values
  import opened VerificationCode
  import UseAuth
  import Routes

  const MinPasswordLength := 8

  /** The members of the class `[!@#$%^&*(),.?":{}|<>]`. */
  const SpecialCharacters := "!@#$%^&*(),.?\":{}|<>"

  /** The character classes the strength rules test for. */
  datatype CharClass = Uppercase | Lowercase | Number | Special

  predicate InClass(c: char, k: CharClass)
  {
    match k
    case Uppercase => 'A' <= c <= 'Z'
    case Lowercase => 'a' <= c <= 'z'
    case Number => IsDigit(c)
    case Special => c in SpecialCharacters
  }

  /** `/[...]/.test(s)`: some character of `s` is in the class. */
  function Test(s: string, k: CharClass): (r: bool)
    ensures r <==> exists i :: 0 <= i < |s| && InClass(s[i], k)
  {
    if s == [] then false
    else if InClass(s[0], k) then true
    else
      assert forall i :: 1 <= i < |s| ==> s[i] == s[1..][i - 1];
      Test(s[1..], k)
  }

  /** The `passwordValidation` record. */
  datatype PasswordFlags = PasswordFlags(length: bool, uppercase: bool, lowercase: bool, number: bool, special: bool)

  /** The record's value before the rules first run (page.tsx:16-22). */
  const NoFlags := PasswordFlags(false, false, false, false, false)

  /** The rules the strength effect computes (page.tsx:47-57). */
  function Flags(password: string): (f: PasswordFlags)
    ensures f.length <==> |password| >= MinPasswordLength
    ensures f.uppercase <==> exists i :: 0 <= i < |password| && 'A' <= password[i] <= 'Z'
    ensures f.lowercase <==> exists i :: 0 <= i < |password| && 'a' <= password[i] <= 'z'
    ensures f.number <==> exists i :: 0 <= i < |password| && '0' <= password[i] <= '9'
    ensures f.special <==> exists i :: 0 <= i < |password| && password[i] in SpecialCharacters
  {
    PasswordFlags(|password| >= MinPasswordLength,
                  Test(password, Uppercase), Test(password, Lowercase),
                  Test(password, Number), Test(password, Special))
  }

  /** Every rule set: the record `isPasswordValid` accepts. */
  const AllFlags := PasswordFlags(true, true, true, true, true)

  /** `Object.values(passwordValidation)`, in the record's key order. */
  function FlagValues(f: PasswordFlags): seq<bool>
  {
    [f.length, f.uppercase, f.lowercase, f.number, f.special]
  }

  /** `Object.values(passwordValidation).every(Boolean)` (page.tsx:94): the
      record passes exactly when every rule is set. */
  predicate IsPasswordValid(f: PasswordFlags)
    ensures IsPasswordValid(f) <==> f == AllFlags
  {
    var values := FlagValues(f);
    assert values[0] == f.length && values[1] == f.uppercase && values[2] == f.lowercase;
    assert values[3] == f.number && values[4] == f.special;
    forall i :: 0 <= i < |values| ==> values[i]
  }

  /** `newPassword === confirmNewPassword` (page.tsx:95): the same code units
      in the same order. */
  predicate PasswordsMatch(newPassword: string, confirmNewPassword: string)
    ensures PasswordsMatch(newPassword, confirmNewPassword) <==>
      |newPassword| == |confirmNewPassword| &&
      forall i :: 0 <= i < |newPassword| ==> newPassword[i] == confirmNewPassword[i]
  {
    newPassword == confirmNewPassword
  }

  /** The guard of `handleResetPassword` (page.tsx:100-102): the handler
      goes on exactly when every rule is set and the two entries agree. */
  predicate ResetAllowed(f: PasswordFlags, newPassword: string, confirmNewPassword: string)
    ensures ResetAllowed(f, newPassword, confirmNewPassword) <==> f == AllFlags && newPassword == confirmNewPassword
  {
    IsPasswordValid(f) && PasswordsMatch(newPassword, confirmNewPassword)
  }

  /** Once the effect has run, a password passes the rules exactly when it
      has eight characters and one of each class. */
  lemma ValidIffAllRules(password: string)
    ensures IsPasswordValid(Flags(password)) <==>
      && |password| >= MinPasswordLength
      && (exists i :: 0 <= i < |password| && 'A' <= password[i] <= 'Z')
      && (exists i :: 0 <= i < |password| && 'a' <= password[i] <= 'z')
      && (exists i :: 0 <= i < |password| && '0' <= password[i] <= '9')
      && (exists i :: 0 <= i < |password| && password[i] in SpecialCharacters)
  {
  }

  /** A password meeting all five rules. */
  lemma StrongExample()
    ensures IsPasswordValid(Flags("Passw0rd!"))
  {
    var p := "Passw0rd!";
    assert 'A' <= p[0] <= 'Z' && 'a' <= p[1] <= 'z' && '0' <= p[5] <= '9';
    assert p[8] == SpecialCharacters[0];
  }

  /** A lower-case word of eight letters meets only the length and
      lower-case rules. */
  lemma WeakExample()
    ensures Flags("password") == PasswordFlags(true, false, true, false, false)
  {
    var p := "password";
    assert 'a' <= p[0] <= 'z';
    assert forall i :: 0 <= i < |p| ==> 'a' <= p[i] <= 'z';
    assert forall i :: 0 <= i < |p| ==> p[i] !in SpecialCharacters;
  }

  /** The send-code button's `disabled` (page.tsx:200). */
  function SendCodeDisabled(isSubmitting: bool, email: string): (r: bool)
    ensures !r <==> !isSubmitting && email != ""
  {
    isSubmitting || email == ""
  }

  /** The reset button's `disabled` (page.tsx:336). An enabled button means
      the handler's own guard passes as well; the code length is checked by
      the button alone. */
  function ResetSubmitDisabled(isSubmitting: bool, f: PasswordFlags, newPassword: string,
                               confirmNewPassword: string, code: string): (r: bool)
    ensures !r <==> !isSubmitting && ResetAllowed(f, newPassword, confirmNewPassword) && |code| == CodeLength
  {
    isSubmitting || !IsPasswordValid(f) || !PasswordsMatch(newPassword, confirmNewPassword) || |code| != CodeLength
  }

  /** The two password cells `handlePasswordChange` writes. */
  datatype PasswordFields = PasswordFields(newPassword: string, confirmNewPassword: string)

  /** `handlePasswordChange` (page.tsx:70-78): the input's `name` selects the
      one cell to write; any other name writes nothing. */
  function ApplyPasswordChange(fields: PasswordFields, name: string, value: string): (r: PasswordFields)
    ensures name == "newPassword" ==> r.newPassword == value && r.confirmNewPassword == fields.confirmNewPassword
    ensures name == "confirmNewPassword" ==> r.confirmNewPassword == value && r.newPassword == fields.newPassword
    ensures name != "newPassword" && name != "confirmNewPassword" ==> r == fields
  {
    if name == "newPassword" then fields.(newPassword := value)
    else if name == "confirmNewPassword" then fields.(confirmNewPassword := value)
    else fields
  }

  /** The page's state cells, as one record (page.tsx:9-22; `showPassword`
      only toggles how the field is drawn and is left out). */
  datatype FormView = FormView(
    email: string,
    isSubmitting: bool,
    isCodeSent: bool,
    confirmationCode: string,
    passwords: PasswordFields,
    passwordValidation: PasswordFlags)

  class ForgotPasswordPage {
    var email: string
    var isSubmitting: bool
    var isCodeSent: bool
    var confirmationCode: string
    var passwords: PasswordFields
    var passwordValidation: PasswordFlags

    function View(): FormView
      reads this
    {
      FormView(email, isSubmitting, isCodeSent, confirmationCode, passwords, passwordValidation)
    }

    constructor ()
      ensures View() == FormView("", false, false, "", PasswordFields("", ""), NoFlags)
    {
      email, isSubmitting, isCodeSent, confirmationCode := "", false, false, "";
      passwords := PasswordFields("", "");
      passwordValidation := NoFlags;
    }

    /** The strength effect, run after `newPassword` changes (page.tsx:47-57). */
    method PasswordRuleEffect()
      modifies this
      ensures View() == old(View()).(passwordValidation := Flags(passwords.newPassword))
    {
      passwordValidation := Flags(passwords.newPassword);
    }

    /** The error effect (page.tsx:41-45). */
    method ErrorEffect(error: Option<string>)
      modifies this
      ensures View() == if Truthy(error) then old(View()).(isSubmitting := false) else old(View())
    {
      if Truthy(error) {
        isSubmitting := false;
      }
    }

    /** `handleEmailChange` (page.tsx:59-62). */
    method HandleEmailChange(auth: UseAuth.AuthHook, value: string)
      requires auth.Valid()
      modifies this, auth
      ensures auth.Valid() && auth.state == UseAuth.ErrorDismissed(old(auth.state))
      ensures View() == old(View()).(email := value)
    {
      email := value;
      if Truthy(auth.state.error) {
        auth.ClearError();
      }
    }

    /** `handleCodeChange` (page.tsx:64-68). */
    method HandleCodeChange(auth: UseAuth.AuthHook, value: string)
      requires auth.Valid()
      modifies this, auth
      ensures auth.Valid() && auth.state == UseAuth.ErrorDismissed(old(auth.state))
      ensures View() == old(View()).(confirmationCode := Sanitize(value))
    {
      confirmationCode := Sanitize(value);
      if Truthy(auth.state.error) {
        auth.ClearError();
      }
    }

    /** `handlePasswordChange` (page.tsx:70-78). */
    method HandlePasswordChange(auth: UseAuth.AuthHook, name: string, value: string)
      requires auth.Valid()
      modifies this, auth
      ensures auth.Valid() && auth.state == UseAuth.ErrorDismissed(old(auth.state))
      ensures View() == old(View()).(passwords := ApplyPasswordChange(old(passwords), name, value))
    {
      if name == "newPassword" {
        passwords := passwords.(newPassword := value);
      } else if name == "confirmNewPassword" {
        passwords := passwords.(confirmNewPassword := value);
      }
      if Truthy(auth.state.error) {
        auth.ClearError();
      }
    }

    /** `handleSendCode` (page.tsx:80-92): the code counts as sent only when
        the hook's `resetPassword` resolves; its error is swallowed. */
    method HandleSendCode(auth: UseAuth.AuthHook, outcome: Outcome<string>)
      requires auth.Valid()
      modifies this, auth
      ensures auth.Valid()
      ensures auth.state == UseAuth.Settled(old(auth.state), UseAuth.FailureOf(outcome, UseAuth.ResetFailed))
      ensures View() == old(View()).(isSubmitting := false, isCodeSent := old(isCodeSent) || outcome.Ok?)
    {
      isSubmitting := true;
      var r := auth.ResetPassword(outcome);
      if r.Success? {
        isCodeSent := true;
      }
      isSubmitting := false;
    }

    /** `handleResetPassword` (page.tsx:97-120). `called` says whether the
        hook (and so the provider) was asked at all; `redirect` is the
        router push made on success. */
    method HandleResetPassword(auth: UseAuth.AuthHook, outcome: Outcome<()>)
      returns (called: bool, redirect: Option<string>)
      requires auth.Valid()
      modifies this, auth
      ensures auth.Valid()
      ensures called <==> ResetAllowed(old(passwordValidation), old(passwords.newPassword), old(passwords.confirmNewPassword))
      ensures !called ==> View() == old(View()) && auth.state == old(auth.state) && redirect == None
      ensures called ==>
        && View() == old(View()).(isSubmitting := false)
        && auth.state == UseAuth.Settled(old(auth.state), UseAuth.FailureOf(outcome, UseAuth.ConfirmResetFailed))
        && redirect == (if outcome.Ok? then Some(Routes.LoginAfterReset) else None)
    {
      if !IsPasswordValid(passwordValidation) || !PasswordsMatch(passwords.newPassword, passwords.confirmNewPassword) {
        return false, None;
      }
      called, redirect := true, None;
      isSubmitting := true;
      var r := auth.ConfirmResetPassword(outcome);
      if r.Success? {
        redirect := Some(Routes.LoginAfterReset);
      }
      isSubmitting := false;
    }

    /** `handleGoBack` (page.tsx:122-128): back to the first stage, keeping
        the e-mail. The strength flags are recomputed by the effect. */
    method HandleGoBack(auth: UseAuth.AuthHook)
      requires auth.Valid()
      modifies this, auth
      ensures auth.Valid() && auth.state == old(auth.state).(error := None)
      ensures View() == old(View()).(isCodeSent := false, confirmationCode := "", passwords := PasswordFields("", ""))
    {
      isCodeSent := false;
      confirmationCode := "";
      passwords := PasswordFields("", "");
      auth.ClearError();
    }
  }
}
