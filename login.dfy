/** The login page (app/auth/login/page.tsx): an e-mail/password form that
    asks the hook to sign in. Its submit flag is raised on submit and is
    lowered only by the error effect. */
module Login {
  import opened Values
  import UseAuth
  import Routes

  /** The two named inputs of the form (page.tsx:104, 124). */
  datatype Field = Email | Password

  /** The `formData` cell (page.tsx:9-12). */
  datatype LoginForm = LoginForm(email: string, password: string)

  function FieldValue(form: LoginForm, field: Field): string
  {
    match field
    case Email => form.email
    case Password => form.password
  }

  /** `{ ...prev, [name]: value }` (page.tsx:35-38): the named field takes the
      value and the other keeps its own. */
  function WithField(form: LoginForm, field: Field, value: string): (r: LoginForm)
    ensures forall g: Field :: FieldValue(r, g) == if g == field then value else FieldValue(form, g)
  {
    match field
    case Email => form.(email := value)
    case Password => form.(password := value)
  }

  class LoginPage {
    var formData: LoginForm
    var isSubmitting: bool

    constructor ()
      ensures formData == LoginForm("", "") && !isSubmitting
    {
      formData := LoginForm("", "");
      isSubmitting := false;
    }

    /** The submit button's `disabled` (page.tsx:186). */
    predicate SubmitDisabled()
      reads this
      ensures SubmitDisabled() <==> isSubmitting
    {
      isSubmitting
    }

    /** The error effect (page.tsx:27-31). */
    method ErrorEffect(error: Option<string>)
      modifies this
      ensures formData == old(formData)
      ensures isSubmitting == (old(isSubmitting) && !Truthy(error))
    {
      if Truthy(error) {
        isSubmitting := false;
      }
    }

    /** `handleInputChange` (page.tsx:33-40). */
    method HandleInputChange(auth: UseAuth.AuthHook, field: Field, value: string)
      requires auth.Valid()
      modifies this, auth
      ensures auth.Valid() && auth.state == UseAuth.ErrorDismissed(old(auth.state))
      ensures formData == WithField(old(formData), field, value)
      ensures isSubmitting == old(isSubmitting)
    {
      formData := WithField(formData, field, value);
      if Truthy(auth.state.error) {
        auth.ClearError();
      }
    }

    /** `handleSubmit` (page.tsx:42-53): the hook's error is swallowed and
        `isSubmitting` is left set whatever the outcome. */
    method HandleSubmit(auth: UseAuth.AuthHook, outcome: Outcome<UseAuth.StepOutput>, probe: UseAuth.SessionProbe)
      requires auth.Valid()
      modifies this, auth
      ensures auth.Valid()
      ensures auth.state == UseAuth.AfterStep(old(auth.state), UseAuth.FailureOf(outcome, UseAuth.SignInFailed),
                                              outcome.Ok? && outcome.payload.isComplete, probe)
      ensures formData == old(formData) && isSubmitting && SubmitDisabled()
    {
      isSubmitting := true;
      var _ := auth.SignIn(outcome, probe);
    }
  }

  /** A submit followed by the error effect it triggers: the form is usable
      again exactly when sign-in failed, and the page then goes to the
      dashboard exactly when the hook ends up authenticated. */
  method SubmitAndSettle(page: LoginPage, auth: UseAuth.AuthHook,
                         outcome: Outcome<UseAuth.StepOutput>, probe: UseAuth.SessionProbe)
    returns (redirect: Option<string>)
    requires auth.Valid()
    modifies page, auth
    ensures auth.Valid()
    ensures page.isSubmitting <==> outcome.Ok?
    ensures redirect.Some? <==> auth.state.isAuthenticated
    ensures outcome.Err? ==> auth.state.isAuthenticated == old(auth.state.isAuthenticated)
  {
    page.HandleSubmit(auth, outcome, probe);
    page.ErrorEffect(auth.state.error);
    redirect := Routes.DashboardRedirect(auth.state.isAuthenticated);
  }
}
