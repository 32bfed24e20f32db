# Authentication flow of the AgroInsight mobile client, in Dafny

This project models the account-access flow of the AgroInsight React Native client:

- the login screen (`handleLogin`);
- the registration screen (`handleNext`);
- the identity-confirmation screen that follows registration;
- the two-factor verification screen that follows login.

It models them as four Dafny modules plus three shared ones:

- `Credentials` holds the credential rules shared by both forms:
  - the e-mail regular expression `^[^\s@]+@[^\s@]+\.[^\s@]+$`;
  - the "at least 8 characters" password rule;
  - the four rule violations with their alert texts.
- `Remote` holds the requests sent to the back end, their outcomes (a response status or a thrown error), the navigation routes and what a handler leaves behind.
- `Otp` holds the four-slot one-time-code buffer. Both code screens keep one. The pure part is the specification functions `Written` and `Join`. The class `CodeBuffer` works over an `array<string>` written in place.
- `Login`, `Register`, `ConfirmIdentity` and `Verification` follow the same pattern:
  - a pure function gives what each handler does, given the outcome of the request it sends;
  - a class holds the screen's React state (form fields, modal or alert visibility and message);
  - the class's methods make the same early-return updates as the component, step by step. Their `ensures` tie the new state to the pure function.
- `Flow` is the screen machine over the current route:
  - it starts on `Login(false)`, the stack's initial route;
  - each transition delegates to the screen's pure handler;
  - it carries the invariants that every run keeps.

Modelling choices:

- A remote call is modelled as the abstract `Outcome` it has: `Status(code)` for a response, `TransportError` for a thrown error. A handler is given the outcome its request would have. The handler uses it only on the paths where the source actually sends the request.
- JavaScript's `\s` is written out as the ECMAScript WhiteSpace and LineTerminator code points.
- `password.length` is modelled as the number of UTF-16 code units (`CodeUnits`). A character outside the Basic Multilingual Plane counts twice, as in JavaScript. For text inside that plane, the rule is exactly `|p| >= 8` (`ValidPasswordBmp`).
- The patterns the source uses accept the same strings whether they are read over UTF-16 code units or over code points: the e-mail regex builds only on `[^\s@]+` runs, and `^[0-9]$` accepts one ASCII digit. A single `[^\s@]` is different: a character outside the Basic Multilingual Plane is one code point but two code units. The `+` runs absorb that difference, because surrogate halves are neither whitespace nor `@`. A surrogate half is also not a digit, so `^[0-9]$` is unaffected. Strings are therefore `seq<char>` of code points.

Behaviour the model keeps exactly as the code has it:

- A create request that returns a status other than 200 or 201, without throwing, shows nothing.
- The confirmation screen's redirect delay is the fixed 1000 ms of the code, not a configurable value.
- The submitted pin is the plain `join('')` of the slots. It may be shorter than 4 digits.
- No screen checks that all four slots are filled before submitting, and the model adds no such check.

## Model

| member | source | states |
|---|---|---|
| `Credentials.ValidEmailIffRegex` | components/LoginScreen.tsx:27-30 | `IsValidEmail`, a scan from the first `@` (the same test is at components/RegisterScreen.tsx:22-25), accepts a string iff the regex `^[^\s@]+@[^\s@]+\.[^\s@]+$`, read literally as three non-empty `[^\s@]` runs around `@` and `.`, matches it |
| `Credentials.ValidEmailShape` | components/LoginScreen.tsx:27-30 | a string is accepted iff it has exactly one `@`, a non-empty whitespace-free part before it, and a whitespace-free part after it with a `.` that is neither its first nor its last character |
| `Credentials.CodeUnits` | components/RegisterScreen.tsx:28 | JavaScript's `length` is at least the character count and at most twice it |
| `Credentials.CodeUnitsOfBmp` | components/RegisterScreen.tsx:28 | inside the Basic Multilingual Plane, `length` is the character count |
| `Credentials.ValidPasswordBmp` | components/RegisterScreen.tsx:27-29 | on such text, `IsValidPassword` (a `length` of at least 8) holds iff there are at least 8 characters, so 8 passes and 7 fails |
| `Credentials.PasswordLengthBounds` | components/RegisterScreen.tsx:27-29 | any 8 characters pass and fewer than 4 characters always fail, whatever the characters |
| `Credentials.Message` | components/RegisterScreen.tsx:32-54 | each violated rule has a non-empty alert text (the first two are shared with components/LoginScreen.tsx:35-41) |
| `Credentials.MessagesDistinct` | components/RegisterScreen.tsx:32-54 | two rules share an alert text only if they are the same rule |
| `Login.CheckLogin` | components/LoginScreen.tsx:34-44 | the login checks report only a missing field or an invalid e-mail |
| `Login.CheckLoginIsFirstViolation` | components/LoginScreen.tsx:34-44 | the reported rule is exactly the first broken rule (presence, then format), and nothing is reported iff no rule is broken |
| `Login.LoginResult` | components/LoginScreen.tsx:33-67 | a request is sent iff the checks pass, and it carries exactly the form's e-mail and password; navigation to Verification with the same e-mail happens iff the request got 200, and an alert is raised exactly when there is no navigation; a failed check shows its rule's text |
| `Login.PresenceBeforeFormat` | components/LoginScreen.tsx:34-38 | an empty e-mail or password gives the missing-fields alert and no request, even when the e-mail is also malformed |
| `Login.MalformedEmailReported` | components/LoginScreen.tsx:40-44 | with both fields present, a malformed e-mail gives the invalid-e-mail alert and no request |
| `Login.PasswordOnlyNeedsPresence` | components/LoginScreen.tsx:34-51 | any non-empty password with a valid e-mail is sent unchanged: its content and length are never checked |
| `Login.LoginFailuresDiffer` | components/LoginScreen.tsx:54-66 | a non-200 status and a thrown error raise different alerts, and neither navigates |
| `Login.LoginScreen.constructor` | components/LoginScreen.tsx:8-12 | both fields start empty, with the modal hidden |
| `Login.LoginScreen.ChangeEmail` | components/LoginScreen.tsx:87 | typing replaces the e-mail field |
| `Login.LoginScreen.ChangePassword` | components/LoginScreen.tsx:99 | typing replaces the password field |
| `Login.LoginScreen.ApplyRouteParams` | components/LoginScreen.tsx:19-24 | the `resetFields` parameter empties both fields; without it nothing changes |
| `Login.LoginScreen.HandleLogin` | components/LoginScreen.tsx:33-67 | the request and navigation are those of `LoginResult`; the modal shows its alert, or the modal state is left as it was; the form is never changed |
| `Login.LoginScreen.ToggleModal` | components/LoginScreen.tsx:158-175 | closing the error modal flips its visibility |
| `Register.CheckRegistration` | components/RegisterScreen.tsx:32-54 | a reported rule is really broken by the form |
| `Register.CheckRegistrationIsFirstViolation` | components/RegisterScreen.tsx:32-54 | fixed precedence: the reported rule is exactly the first broken one among missing field, invalid e-mail, short password, mismatch, and nothing is reported iff no rule is broken |
| `Register.RegisterResult` | components/RegisterScreen.tsx:31-77 | a create request with the four fields is sent iff the checks pass; navigation to ConfirmIdentity with the same e-mail happens iff the status is 200 or 201; an alert is raised iff a check failed or the request threw, and a thrown request shows the create-failure text |
| `Register.ShortPasswordBeforeMismatch` | components/RegisterScreen.tsx:44-54 | a short password is reported even when the confirmation also differs |
| `Register.OtherStatusIsSilent` | components/RegisterScreen.tsx:64-66 | any other non-throwing status neither navigates nor raises an alert |
| `Register.AcceptedFormIsValid` | components/RegisterScreen.tsx:32-57 | a form that reaches the request has names, a valid e-mail, a valid password and a matching confirmation |
| `Register.RegisterScreen.constructor` | components/RegisterScreen.tsx:10-18 | every field starts empty, with the modal hidden |
| `Register.RegisterScreen.ChangeNombre` | components/RegisterScreen.tsx:98 | typing replaces the `nombre` field and leaves the other four as they were |
| `Register.RegisterScreen.ChangeApellido` | components/RegisterScreen.tsx:108 | typing replaces the `apellido` field and leaves the other four as they were |
| `Register.RegisterScreen.ChangeEmail` | components/RegisterScreen.tsx:119 | typing replaces the `email` field and leaves the other four as they were |
| `Register.RegisterScreen.ChangePassword` | components/RegisterScreen.tsx:131 | typing replaces the `password` field and leaves the other four as they were |
| `Register.RegisterScreen.ChangeConfirmPassword` | components/RegisterScreen.tsx:147 | typing replaces the `confirmPassword` field and leaves the other four as they were |
| `Register.RegisterScreen.HandleNext` | components/RegisterScreen.tsx:31-77 | the request and navigation are those of `RegisterResult`; the modal shows its alert, or the modal state is left as it was |
| `Register.RegisterScreen.ToggleModal` | components/RegisterScreen.tsx:175-192 | closing the error modal flips its visibility |
| `Otp.EmptyCode` | components/ConfirmIdentity.tsx:13 | the initial buffer is four empty slots, a well-formed buffer |
| `Otp.Written` | components/ConfirmIdentity.tsx:22-27 | a write keeps the length and every other slot; slot `index` becomes `value` if `value` is `""` or one ASCII digit, and is otherwise unchanged |
| `Otp.WrittenIdempotent` | components/ConfirmIdentity.tsx:22-27 | writing the same value twice has the effect of writing it once |
| `Otp.WrittenWellFormed` | components/ConfirmIdentity.tsx:22-27 | writes keep every slot `""` or one digit |
| `Otp.Join` | components/ConfirmIdentity.tsx:35 | the join of well-formed slots is a digit string no longer than the buffer |
| `Otp.JoinLength` | components/ConfirmIdentity.tsx:35 | the pin has exactly one digit per filled slot: no completeness check |
| `Otp.JoinComplete` | components/ConfirmIdentity.tsx:35 | with every slot filled, the pin is the slots' digits in order |
| `Otp.JoinOfEmptyCode` | components/ConfirmIdentity.tsx:30-35 | submitting right after a clear sends `""` |
| `Otp.JoinExample` | components/ConfirmIdentity.tsx:35 | slots "1", "2", "3", "4" are sent as "1234" |
| `Otp.CodeBuffer.constructor` | components/ConfirmIdentity.tsx:13 | a fresh array of four empty slots |
| `Otp.CodeBuffer.Set` | components/ConfirmIdentity.tsx:22-27 | the array becomes `Written` of its old contents, and stays well-formed |
| `Otp.CodeBuffer.Clear` | components/ConfirmIdentity.tsx:30-32 | the array becomes four empty slots |
| `Otp.CodeBuffer.Submission` | components/ConfirmIdentity.tsx:35 | the pin is `Join` of the slots: digits only, at most 4 of them |
| `ConfirmIdentity.SubmitResult` | components/ConfirmIdentity.tsx:34-58 | a confirm request with the route's e-mail and the joined pin is always sent; an alert is always raised, and it is the success text iff the status is 200, which alone schedules Login after 1000 ms |
| `ConfirmIdentity.ResendResult` | components/ConfirmIdentity.tsx:60-70 | a resend request for the same e-mail; never navigates; always ends with an alert, the success text iff the request did not throw |
| `ConfirmIdentity.SubmitFailuresDiffer` | components/ConfirmIdentity.tsx:43-57 | a non-200 status and a thrown error raise different alerts and stay on the screen |
| `ConfirmIdentity.ConfirmIdentityScreen.constructor` | components/ConfirmIdentity.tsx:13-18 | the route's e-mail, four empty slots, no alert |
| `ConfirmIdentity.ConfirmIdentityScreen.HandleInputChange` | components/ConfirmIdentity.tsx:22-27 | the slots become `Written` of the old slots |
| `ConfirmIdentity.ConfirmIdentityScreen.HandleClear` | components/ConfirmIdentity.tsx:30-32 | the slots become four empty slots |
| `ConfirmIdentity.ConfirmIdentityScreen.HandleSubmit` | components/ConfirmIdentity.tsx:34-58 | request, navigation and the visible alert are those of `SubmitResult` on the current slots |
| `ConfirmIdentity.ConfirmIdentityScreen.HandleResend` | components/ConfirmIdentity.tsx:60-70 | request and the visible alert are those of `ResendResult` |
| `ConfirmIdentity.ConfirmIdentityScreen.CloseAlert` | components/ConfirmIdentity.tsx:72-74 | the alert is hidden |
| `Verification.SubmitResult` | components/Verification.tsx:33-53 | a verify request with the route's e-mail and the joined pin is always sent; an alert is always raised, "Verificación exitosa." iff the status is 200, which alone navigates Home |
| `Verification.ResendResult` | components/Verification.tsx:55-66 | a 2FA resend for the same e-mail; never navigates; always ends with an alert, the success text iff the request did not throw |
| `Verification.SubmitFailuresDiffer` | components/Verification.tsx:41-52 | a non-200 status shows "Código incorrecto." and a thrown error the generic text; they differ and neither navigates |
| `Verification.VerificationScreen.constructor` | components/Verification.tsx:15-19 | `route.params.email`, four empty slots, no alert |
| `Verification.VerificationScreen.HandleInputChange` | components/Verification.tsx:21-27 | the slots become `Written` of the old slots |
| `Verification.VerificationScreen.HandleClear` | components/Verification.tsx:29-31 | the slots become four empty slots |
| `Verification.VerificationScreen.HandleSubmit` | components/Verification.tsx:33-53 | request, navigation and the visible alert are those of `SubmitResult` on the current slots |
| `Verification.VerificationScreen.HandleResend` | components/Verification.tsx:55-66 | request and the visible alert are those of `ResendResult` |
| `Verification.VerificationScreen.CloseAlert` | components/Verification.tsx:68-70 | the alert is hidden |
| `Flow.LoginTransition` | components/LoginScreen.tsx:54-66 | from Login, a submission either stays on Login or moves to Verification of exactly the submitted e-mail, and it moves iff the checks pass and the status is 200 |
| `Flow.RegisterTransition` | components/RegisterScreen.tsx:64-70 | from Register, a submission either stays or moves to ConfirmIdentity of the same e-mail, and it moves iff the checks pass and the status is 200 or 201 |
| `Flow.ConfirmTransition` | components/ConfirmIdentity.tsx:43-57 | ConfirmIdentity returns to Login iff the status is 200 and otherwise stays; it always sends the confirm request and raises an alert |
| `Flow.VerificationTransition` | components/Verification.tsx:41-52 | Verification goes Home iff the status is 200 and otherwise stays; it always sends the verify request and raises an alert |
| `Flow.ResendKeepsScreen` | components/ConfirmIdentity.tsx:60-70 | resending never changes the screen, on either code screen (also components/Verification.tsx:55-66) |
| `Flow.ValidationFailureKeepsScreen` | components/RegisterScreen.tsx:32-54 | a failed local check sends nothing, keeps the screen and shows that rule's text (also components/LoginScreen.tsx:34-44) |
| `Flow.HomeOnlyFromVerification` | components/Verification.tsx:41-44 | Home is entered only from Verification on status 200 |
| `Flow.VerificationOnlyFromLogin` | components/LoginScreen.tsx:54-56 | Verification of an e-mail is entered only from Login, in the step that sends that e-mail's login request |
| `Flow.Next` | App.tsx:14-19 | every step either keeps the current route or follows one edge of the stack's navigation graph, the set of `navigate` calls the five screens make; the individual edges are stated by the transition lemmas below |
| `Flow.Run` | App.tsx:14 | a run of events sends at most one request and raises at most one alert per event |
| `Flow.PlainNavigation` | components/LoginScreen.tsx:116 | the "Crea una cuenta" link opens Register, and Register's "Inicia sesión" link (components/RegisterScreen.tsx:79-81) returns to Login without `resetFields`; neither sends a request nor raises an alert |
| `Flow.ConfirmIdentityOnlyFromRegister` | components/RegisterScreen.tsx:56-65 | ConfirmIdentity of an e-mail is entered only from Register, in the step that sends a create request for that same e-mail |
| `Flow.LogoutResetsLogin` | components/Home.tsx:9-12 | logout lands on Login with `resetFields` set |
| `Flow.NextPreservesInvariants` | components/LoginScreen.tsx:33-67 | covering also components/RegisterScreen.tsx:31-77, components/ConfirmIdentity.tsx:34-70 and components/Verification.tsx:33-66: one step from an event the screens can produce keeps every code screen's e-mail valid and sends only requests whose data passed the local rules, with every pin at most four digits |
| `Flow.RunPreservesInvariants` | components/RegisterScreen.tsx:31-77 | over the same four handlers (components/LoginScreen.tsx:33-67, components/ConfirmIdentity.tsx:34-70, components/Verification.tsx:33-66), the same for every finite run of events the screens can produce (submitted codes are four slots, each empty or one digit) |
| `Flow.AppRunsAreSafe` | App.tsx:14 | from the initial Login route, no run of events the screens can produce ever sends a malformed e-mail, an empty login password, a registration password shorter than 8 or a pin other than at most four digits |
| `Flow.AcceptedRegistration` | components/RegisterScreen.tsx:56-65 | a form that passes the checks and gets 201 moves to ConfirmIdentity of its e-mail, sending exactly its four fields |
| `Flow.RegistrationScenario` | components/RegisterScreen.tsx:31-65 | Ana Diaz, ana@x.com, "abcdefgh" twice, answered with 201, leads to ConfirmIdentity("ana@x.com") |
| `Flow.EmptyPasswordScenario` | components/LoginScreen.tsx:34-38 | logging in with an empty password stays on Login, sends no request and raises exactly one alert |
| `Flow.LoginScenario` | components/Verification.tsx:33-44 | login of a@b.com with 200, then pin 1234 with 200, reaches Home; exactly the login and verify requests are sent |

## Left out

- Rendering and styling are not modelled: the JSX, the style sheets, icons, the header and the `showPassword` toggles.
- The forgot-password modal of the login screen is not modelled. It only shows fixed text.
- HTTP transport is not modelled: axios, the back-end host, the JSON shapes and axios's own status validation. Axios by default throws on a non-2xx status. The model keeps the code's branches as written: it takes any status as a possible response and a thrown error as `TransportError`.
- Timing and concurrency are not modelled:
  - The 1000 ms `setTimeout` is carried as `delayMs` in the navigation, and `Flow` takes it at once.
  - Cancelling the timer is not modelled.
  - Overlapping responses from repeated taps are not modelled.
  - Alerts set on a screen that is being left are not modelled.
- `console.error` logging in the registration handler is not modelled.
- Writes to a slot index of 4 or more are not modelled. JavaScript would grow the array there. `HandleInputChange` and `CodeBuffer.Set` require `index < 4`.
- `setCode` in the source replaces the React state with a modified copy. The model writes the slot in place. No other part of the screen keeps the old array, so the replacement cannot be observed.
- The `maxLength={1}` of the code inputs is not modelled. It is a presentation limit, and `handleInputChange` guards the same thing.
- React Navigation's stack history is not modelled. The machine keeps only the current route. When a route is revisited, the screen's earlier form state is not kept: the login form after returning from confirmation is modelled by `LoginScreen` alone.
- `Home` is not modelled as a file. Its one handler is the `Logout` edge of `Flow`.
