# Auth UI shell: session hook, forms, route guard and dashboard

This project models the logic of a web front end that delegates sign-up,
sign-in and password reset to a managed identity provider. The model covers:

- the session-state hook `useAuth`. It keeps one `{user, isLoading,
  isAuthenticated, error}` record, and every operation rewrites it around
  its awaited provider calls;
- the login, confirm-email and forgot-password forms: their input filters,
  validators, submit guards, disabled predicates and the resend cooldown;
- the `withAuth` route guard and the context provider;
- the strings the dashboard derives from the signed-in user.

Every provider call is an `Outcome` parameter: `Ok(payload)`, or
`Err(message)`, where "" stands for a missing message. Each operation runs
as one sequential step. React effects (the error effect, the
password-strength effect, the countdown timer, the query-parameter effect)
are explicit methods that the environment calls after the value they watch
changes.

Modules, one per source file plus three shared ones:

- `Values` (values.dfy): `Option`, `Result`, `Outcome`, JavaScript
  truthiness, and the `a || b || ...` fallback over strings.
- `UseAuth` (use_auth.dfy): hooks/useAuth.ts. The class `AuthHook` holds the
  single state cell. Its methods are proved against the spec functions
  `CheckedState`, `Settled`, `AfterStep` and `AfterSignOut`. Those functions
  state the invariant `isAuthenticated <==> user.Some?`, which error is
  stored, and what happens to `isLoading`.
- `VerificationCode` (verification_code.dfy): the strip-non-digits,
  keep-six filter that both code inputs share.
- `Routes` (routes.dfy): the redirect targets and the "signed in, go to the
  dashboard" effect.
- `ForgotPassword`, `ConfirmEmail`, `Login` and `Dashboard`: the pages. Each
  stateful page is a class whose fields are the page's state cells. A
  handler takes the `AuthHook` it calls into.
- `AuthContext` (auth_context.dfy): lib/auth-context.tsx.

Behaviour the code has and the model keeps:

- A failed sign-out has no `finally`, so `isLoading` stays true. The guard
  around the dashboard then shows the spinner again.
- A successful confirm-email or login submit never clears the page's
  `isSubmitting`. Only the error effect does.
- The guard redirects only when `window` exists; otherwise it renders
  nothing, with no redirect.
- `handleResetPassword` checks the password rules and the match, but not
  the code length. Only the button checks the length.
- A signed-in user is not always an authenticated state: when
  `checkAuthState` finds no user or no tokens, or `getCurrentUser` or
  `fetchAuthSession` throws, the state is signed out with no error. A
  failing `fetchUserAttributes` still gives an authenticated state with the
  fallback user.

## Model

| member | source | states |
|---|---|---|
| Values.FirstNonEmpty | hooks/useAuth.ts:79 | a JavaScript `\|\|` chain over strings: the result is "" iff every alternative is "", and otherwise it is the first non-empty alternative |
| Values.FirstNonEmptyPair | hooks/useAuth.ts:152 | `a \|\| b` is `a` when `a` is non-empty and `b` otherwise |
| UseAuth.CheckedState | hooks/useAuth.ts:67-123 | the state left by `checkAuthState` is consistent, not loading, and never an error state; it is authenticated iff the current user exists and the session holds tokens; the user keeps the provider's id and username |
| UseAuth.BuildUser | hooks/useAuth.ts:76-82 | the user keeps the provider's id and username and all attributes; its e-mail is the `email` attribute, else the login id; verified iff `email_verified` is exactly "true" |
| UseAuth.FallbackUser | hooks/useAuth.ts:92-98 | when the attribute fetch threw: the provider's id and username, the login id as e-mail, not verified, no attributes |
| UseAuth.CheckedUserFields | hooks/useAuth.ts:73-106 | with attributes: email is the `email` attribute, else the login id (else ""); verified iff `email_verified` is exactly "true"; attributes kept. When the attribute fetch throws: email is the login id, not verified, no attributes |
| UseAuth.ThrownMessage | hooks/useAuth.ts:151-154 | the stored and rethrown message is the provider's message when it has one, else the operation's default; it is never empty |
| UseAuth.FailureOf | hooks/useAuth.ts:176-179 | an operation reports no error iff the provider call resolved, and otherwise reports the thrown message |
| UseAuth.Settled | hooks/useAuth.ts:228-275 | after an operation that does not re-query the session, the user and `isAuthenticated` are untouched, `isLoading` is false and `error` is the reported failure |
| UseAuth.AfterStep | hooks/useAuth.ts:129-226 | after sign-up, sign-in or confirm: consistency is kept, loading is false, the error is exactly the failure; a failure or an incomplete step leaves the session; a completed step gives the re-queried session |
| UseAuth.AfterSignOut | hooks/useAuth.ts:185-201 | success gives the signed-out, idle, error-free state; failure keeps the session, stores the message and leaves `isLoading` true |
| UseAuth.ErrorDismissed | app/auth/login/page.tsx:39 | a field edit clears a set error to none, leaves an unset one as it was, and changes nothing else in the hook |
| UseAuth.EmailLocalPart | hooks/useAuth.ts:140 | `email.split("@")[0]` is a prefix of the e-mail with no '@' in it, ending at the first '@' or at the end |
| UseAuth.SignUpRequestFor | hooks/useAuth.ts:134-143 | sign-up sends username = email, email = email, the password, and name = the given name, else exactly `EmailLocalPart` of the e-mail (the text before its first '@') |
| UseAuth.AuthHook.constructor | hooks/useAuth.ts:52-57 | on mount: no user, loading, not authenticated, no error |
| UseAuth.AuthHook.SetError | hooks/useAuth.ts:59-61 | changes only `error` |
| UseAuth.AuthHook.SetLoading | hooks/useAuth.ts:63-65 | changes only `isLoading` |
| UseAuth.AuthHook.CheckAuthState | hooks/useAuth.ts:67-123 | the new state is `CheckedState` of the three provider answers, so it is consistent |
| UseAuth.AuthHook.SignUp | hooks/useAuth.ts:129-158 | returns the request built by `SignUpRequestFor`; the new state is `AfterStep`; throws iff the provider threw, with the stored message; otherwise returns userId, nextStep and `requiresConfirmation` iff sign-up is incomplete |
| UseAuth.AuthHook.SignIn | hooks/useAuth.ts:160-183 | the new state is `AfterStep` with the sign-in default message; throws iff the provider threw; otherwise returns nextStep and whether more steps are required |
| UseAuth.AuthHook.SignOut | hooks/useAuth.ts:185-201 | the new state is `AfterSignOut`; throws iff the provider threw, with the stored message |
| UseAuth.AuthHook.ConfirmSignUp | hooks/useAuth.ts:203-226 | the new state is `AfterStep` with the confirmation default message; throws iff the provider threw |
| UseAuth.AuthHook.ResendCode | hooks/useAuth.ts:228-241 | the new state is `Settled` with the resend default message; throws iff the provider threw |
| UseAuth.AuthHook.ResetPassword | hooks/useAuth.ts:243-256 | the new state is `Settled` with the reset default message; returns the provider's nextStep or throws the stored message |
| UseAuth.AuthHook.ConfirmResetPassword | hooks/useAuth.ts:258-275 | the new state is `Settled` with the confirm-reset default message; throws iff the provider threw |
| UseAuth.AuthHook.ClearError | hooks/useAuth.ts:286 | sets `error` to none and changes nothing else |
| VerificationCode.Digits | app/auth/forgot-password/page.tsx:65 | `replace(/[^0-9]/g, '')` yields only digits, no longer than its input, and leaves an all-digit string unchanged |
| VerificationCode.DigitsAppend | app/auth/forgot-password/page.tsx:65 | filtering a concatenation is the concatenation of the filtered parts (digits kept in order) |
| VerificationCode.DigitsOne | app/auth/forgot-password/page.tsx:65 | one character is kept iff it is a digit |
| VerificationCode.Sanitize | app/auth/confirm-email/page.tsx:57 | the stored code is all digits, at most 6 long, a prefix of the input's digits, of length min(6, number of digits) |
| VerificationCode.SanitizeIdempotent | app/auth/confirm-email/page.tsx:57 | sanitising twice gives the same code as sanitising once |
| VerificationCode.SanitizeKeepsCode | app/auth/confirm-email/page.tsx:57 | a string of at most six digits passes through unchanged |
| VerificationCode.SanitizeKeystroke | app/auth/confirm-email/page.tsx:56-58 | typing a character after a partial code appends it iff it is a digit and fewer than six digits are present |
| Routes.DashboardRedirect | app/auth/login/page.tsx:21-25 | the forms navigate to `/dashboard` iff the hook is authenticated |
| ForgotPassword.Test | app/auth/forgot-password/page.tsx:52-55 | a character-class `test` holds iff some character of the password is in the class |
| ForgotPassword.Flags | app/auth/forgot-password/page.tsx:47-57 | the five flags: length at least 8, an A-Z, an a-z, a 0-9, and one of `!@#$%^&*(),.?":{}\|<>` |
| ForgotPassword.ValidIffAllRules | app/auth/forgot-password/page.tsx:94 | `isPasswordValid` over freshly computed flags holds iff all five rules hold |
| ForgotPassword.IsPasswordValid | app/auth/forgot-password/page.tsx:94 | `Object.values(...).every(Boolean)` holds exactly for the record with all five rules set |
| ForgotPassword.PasswordsMatch | app/auth/forgot-password/page.tsx:95 | `===` on strings: same length and the same character at every position |
| ForgotPassword.ResetAllowed | app/auth/forgot-password/page.tsx:100-102 | the reset handler goes past its early return exactly when all five rules are set and the two entries are equal |
| ForgotPassword.StrongExample | app/auth/forgot-password/page.tsx:49-56 | "Passw0rd!" meets all five rules |
| ForgotPassword.WeakExample | app/auth/forgot-password/page.tsx:49-56 | "password" meets only the length and lower-case rules |
| ForgotPassword.SendCodeDisabled | app/auth/forgot-password/page.tsx:200 | the send-code button is enabled iff not submitting and the e-mail is non-empty |
| ForgotPassword.ResetSubmitDisabled | app/auth/forgot-password/page.tsx:336 | the reset button is enabled iff not submitting, the handler's guard (valid and matching passwords) passes, and the code has exactly 6 characters |
| ForgotPassword.ApplyPasswordChange | app/auth/forgot-password/page.tsx:70-78 | the input name selects the one password field written; the other is unchanged; an unknown name writes nothing |
| ForgotPassword.ForgotPasswordPage.constructor | app/auth/forgot-password/page.tsx:9-22 | all cells empty or false, flags all false |
| ForgotPassword.ForgotPasswordPage.PasswordRuleEffect | app/auth/forgot-password/page.tsx:47-57 | the flags become `Flags(newPassword)` and nothing else changes |
| ForgotPassword.ForgotPasswordPage.ErrorEffect | app/auth/forgot-password/page.tsx:41-45 | a truthy error clears `isSubmitting`; otherwise nothing changes |
| ForgotPassword.ForgotPasswordPage.HandleEmailChange | app/auth/forgot-password/page.tsx:59-62 | only the e-mail changes; the hook's error is dismissed |
| ForgotPassword.ForgotPasswordPage.HandleCodeChange | app/auth/forgot-password/page.tsx:64-68 | only the code changes, to the sanitised input; the hook's error is dismissed |
| ForgotPassword.ForgotPasswordPage.HandlePasswordChange | app/auth/forgot-password/page.tsx:70-78 | only the named password field changes; the hook's error is dismissed |
| ForgotPassword.ForgotPasswordPage.HandleSendCode | app/auth/forgot-password/page.tsx:80-92 | afterwards `isSubmitting` is false; the code counts as sent iff it already was or the reset request resolved; the hook is `Settled` |
| ForgotPassword.ForgotPasswordPage.HandleResetPassword | app/auth/forgot-password/page.tsx:97-120 | the hook is called iff the password is valid and matches; otherwise nothing changes; when called, `isSubmitting` ends false and the login redirect happens iff the reset resolved |
| ForgotPassword.ForgotPasswordPage.HandleGoBack | app/auth/forgot-password/page.tsx:122-128 | back to the first stage: the code and both passwords are cleared, the e-mail is kept, the hook's error is cleared |
| ConfirmEmail.AfterTick | app/auth/confirm-email/page.tsx:47-54 | a tick lowers the cooldown by at most one, never below zero, and changes it iff it is positive |
| ConfirmEmail.TicksSaturate | app/auth/confirm-email/page.tsx:47-54 | after n ticks the cooldown is c - n, or 0 once n reaches c |
| ConfirmEmail.ResendDisabled | app/auth/confirm-email/page.tsx:206 | the resend button is enabled iff nothing is being resent, the e-mail is non-empty and the cooldown is 0 (the handler's guard) |
| ConfirmEmail.ResendAllowed | app/auth/confirm-email/page.tsx:84-86 | the resend handler goes past its early return iff the e-mail is non-empty and the cooldown is 0; no countdown is then running |
| ConfirmEmail.SubmitAllowed | app/auth/confirm-email/page.tsx:65-71 | the submit handler goes past both early returns iff the e-mail is non-empty and the code has 6 characters |
| ConfirmEmail.SubmitAfterInput | app/auth/confirm-email/page.tsx:56-71 | after the code input's filter, the form can submit iff the e-mail is non-empty and the typed text held at least six digits; the code sent is then the first six digits |
| ConfirmEmail.SubmitDisabled | app/auth/confirm-email/page.tsx:185 | the verify button is enabled iff not submitting and the code has 6 characters; with an e-mail present, enabled implies the handler's guard passes |
| ConfirmEmail.CooldownWindow | app/auth/confirm-email/page.tsx:88-97 | after a successful resend the button stays disabled for exactly 60 ticks |
| ConfirmEmail.ConfirmEmailPage.constructor | app/auth/confirm-email/page.tsx:9-13 | empty code and e-mail, flags false, cooldown 0 |
| ConfirmEmail.ConfirmEmailPage.QueryEmailEffect | app/auth/confirm-email/page.tsx:27-32 | the e-mail is replaced by the decoded parameter iff the raw parameter is truthy |
| ConfirmEmail.ConfirmEmailPage.ErrorEffect | app/auth/confirm-email/page.tsx:40-45 | a truthy error clears both `isSubmitting` and `isResending` |
| ConfirmEmail.ConfirmEmailPage.Tick | app/auth/confirm-email/page.tsx:47-54 | only the cooldown changes, by `AfterTick` |
| ConfirmEmail.ConfirmEmailPage.HandleInputChange | app/auth/confirm-email/page.tsx:56-60 | only the code changes, to the sanitised input; the hook's error is dismissed |
| ConfirmEmail.ConfirmEmailPage.HandleSubmit | app/auth/confirm-email/page.tsx:62-81 | the hook is called iff the e-mail is non-empty and the code has 6 characters; when called, `isSubmitting` is set and stays set, and the hook is in its `AfterStep` state |
| ConfirmEmail.ConfirmEmailPage.HandleResendCode | app/auth/confirm-email/page.tsx:83-98 | the hook is called iff the e-mail is non-empty and the cooldown is 0; a success sets the cooldown to 60, a failure leaves it; `isResending` ends false |
| Login.WithField | app/auth/login/page.tsx:33-38 | the named field takes the new value and the other field keeps its own |
| Login.LoginPage.constructor | app/auth/login/page.tsx:9-13 | empty e-mail and password, not submitting |
| Login.LoginPage.SubmitDisabled | app/auth/login/page.tsx:186 | the submit button is disabled exactly while `isSubmitting` is set, whatever the form holds |
| Login.LoginPage.ErrorEffect | app/auth/login/page.tsx:27-31 | a truthy error clears `isSubmitting`; the form data is unchanged |
| Login.LoginPage.HandleInputChange | app/auth/login/page.tsx:33-40 | the form data changes by `WithField`; `isSubmitting` is unchanged; the hook's error is dismissed |
| Login.LoginPage.HandleSubmit | app/auth/login/page.tsx:42-53 | sets `isSubmitting`, which also disables the button; the hook is in its `AfterStep` state for sign-in; the error is swallowed |
| Login.SubmitAndSettle | app/auth/login/page.tsx:21-53 | after a submit and the error effect it triggers, the form stays busy iff sign-in resolved, and redirects iff the hook is authenticated; a failure leaves authentication unchanged |
| AuthContext.Guard | lib/auth-context.tsx:64-87 | loading shows the spinner; not loading and not authenticated renders nothing and redirects to `/auth/login` when a window exists; otherwise it renders the page with the same props |
| AuthContext.GuardRendersOnlyWithUser | lib/auth-context.tsx:78-86 | on a consistent hook state the page renders iff loading is over and a user is present |
| AuthContext.GuardAfterCheck | lib/auth-context.tsx:67-86 | after `checkAuthState` the spinner is gone, and the page renders iff the provider reported a user with tokens |
| AuthContext.UseAuthContext | lib/auth-context.tsx:52-58 | fails with the provider message iff there is no provider value; otherwise returns that value |
| AuthContext.WithAuthDisplayName | lib/auth-context.tsx:89 | `withAuth(` + the display name, or else the name, + `)` |
| AuthContext.ConfigureCalls | lib/auth-context.tsx:36-41 | the provider is configured once on mount iff the configuration is valid, else never |
| Dashboard.ToUpperAscii | app/dashboard/page.tsx:33 | ASCII upper-casing: a-z maps to A-Z, every other character is unchanged |
| Dashboard.AvatarInitial | app/dashboard/page.tsx:33 | one character: the upper-cased first character of a non-empty username, else 'U' |
| Dashboard.HeaderName | app/dashboard/page.tsx:37 | the username if non-empty, else the e-mail if non-empty, else 'User'; never empty |
| Dashboard.EmailRow | app/dashboard/page.tsx:178 | the e-mail, or 'Not available' |
| Dashboard.UsernameRow | app/dashboard/page.tsx:182 | the username, or 'Not set' |
| Dashboard.VerifiedRow | app/dashboard/page.tsx:186-188 | 'Yes' iff the user's e-mail is verified, else 'No' |
| Dashboard.SubstringFrom0 | app/dashboard/page.tsx:193 | `substring(0, n)` is a prefix of length min(n, length) |
| Dashboard.UserIdRow | app/dashboard/page.tsx:193 | for a non-empty id: its first min(8, length) characters followed by "..."; otherwise 'Not available' |
| Dashboard.HandleSignOut | app/dashboard/page.tsx:10-16 | the hook's sign-out error is not passed on; after a failure the guard shows the spinner, after a success it redirects to login |

## Left out

- The identity-provider SDK (`signIn`, `signUp`, `getCurrentUser`, `fetchAuthSession`, `fetchUserAttributes`, ...) is a foreign service. Each call is an `Outcome` parameter. Tokens and sessions are reduced to "has tokens".
- UseAuth.AuthHook.SignIn, ConfirmSignUp, ResendCode, ResetPassword and ConfirmResetPassword: does not take or record the e-mail, code or password they forward to the provider unchanged. Only sign-up, whose request is built, records it.
- Overlapping asynchronous operations, their races, hung requests, React's render batching and effect scheduling. Every operation is one atomic step. Each effect is a method run after the value it watches changes.
- `setTimeout`, `clearTimeout` and real time. One timer firing is `Tick`.
- Router navigation, `window.location` and `console` logging. A navigation is returned as a target string.
- `decodeURIComponent`. Its result is a parameter of the query-e-mail effect, and the URIError it throws on malformed input is not modelled.
- A thrown value with no `message` property is modelled as an empty message. A thrown non-object, on which `error.message` would itself throw, is not modelled.
- The loading spinners the three form pages show while `isLoading`, every `showPassword` toggle, and all markup and styling are presentation only.
- The login form's `[name]: value` with a name other than its two inputs would add a key to `formData`. The form has only the `email` and `password` inputs, so the field is a two-case datatype.
- `refreshAuth` is `checkAuthState` itself, so it is not a separate member. The mount effect that calls it is the constructor followed by `CheckAuthState`.
- `validateAuthConfig` and `configureAmplify` in lib/auth-config.ts read environment variables and call the SDK. The validation result is the parameter of `ConfigureCalls`. lib/auth-config.ts, app/page.tsx, app/pricing/page.tsx and app/layout.tsx are not part of this model.
- Attribute values are typed `any` in the source. They are modelled as strings.
- Unicode case mapping is restricted to ASCII. A Dafny `char` stands for one UTF-16 code unit, so characters outside the Basic Multilingual Plane, which are two code units, are not represented.
