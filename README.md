# Sign-up and login form logic of the inventory tracker

This project models the two authentication pages of the inventory-tracking web
application:

- the **sign-up validator**: the password constraints (8 to 16 characters, at
  least one digit, one lower-case letter, one upper-case letter and one of
  thirty listed special characters), the chain of nine checks over email,
  password and confirmation that reports only the first failure, the error
  messages, and the submit step that creates the account only after the checks
  accept and clears the form only after creation succeeds;
- the **login guard**: the email is checked before the password, sign-in is
  attempted only when both are present, a successful sign-in clears both fields
  and opens `/dashboard/<uid>`, and a user who is already signed in is sent to
  their dashboard.

Layout:

- `wrappers.dfy` — `Option`, used for alert texts and navigation targets.
- `password_rules.dfy` — module `PasswordRules`: the character classes built as
  the page builds them, one predicate per check, `ErrorMsg`, and `Validate`,
  the pure form of the check chain, with the lemmas about it.
- `signup_page.dfy` — module `SignUpPage`: class `SignUpForm` with the fields
  `email`, `password`, `confirmedPassword` and `error`; `CheckError` is the
  early-return chain that writes `error`, proved to agree with `Validate`;
  `HandleSignUp` is the submit step.
- `login_page.dfy` — module `LoginPage`: `LoginGuard`, `DashboardPath`,
  `AlreadySignedInRedirect` and class `LoginForm` with `HandleLogin`.

The external calls (account creation, sign-in) are parameters of the submit
steps: the outcome the call would return. Alerts and navigations are returned
as values instead of being performed.

The two length predicates are named in the page as if they detected a bad
length (`isPwdTooShort`, `isPwdTooLong`), but they hold when the length is
acceptable. The model follows what they compute: `MeetsMinLength` is
`|pwd| >= 8` and `MeetsMaxLength` is `|pwd| <= 16`.

## Model

| member | source | states |
|---|---|---|
| `PasswordRules.HasEmail` | app/auth/signup/page.js:97 | holds when the email is not the empty string |
| `PasswordRules.HasPwd` | app/auth/signup/page.js:98 | holds when the password is not the empty string |
| `PasswordRules.DoesPwdMatch` | app/auth/signup/page.js:99 | holds when the password equals the confirmation |
| `PasswordRules.MeetsMinLength` | app/auth/signup/page.js:100 | models `isPwdTooShort`, which holds when the password is ACCEPTABLY long: at least 8 characters |
| `PasswordRules.MeetsMaxLength` | app/auth/signup/page.js:101 | models `isPwdTooLong`, which holds when the password is ACCEPTABLY short: at most 16 characters |
| `PasswordRules.SomeChar` | app/auth/signup/page.js:102-105 | the `some` scan: true when the first character satisfies the test, else the scan of the rest; false on the empty password |
| `PasswordRules.ContainsNumber` | app/auth/signup/page.js:102 | the scan for a digit holds exactly when some position holds a character in `0`..`9` |
| `PasswordRules.ContainsLowercase` | app/auth/signup/page.js:103 | the scan for a lower-case letter holds exactly when some position holds a character in `a`..`z` |
| `PasswordRules.ContainsUppercase` | app/auth/signup/page.js:104 | the scan for an upper-case letter holds exactly when some position holds a character in `A`..`Z` |
| `PasswordRules.ContainsSpecial` | app/auth/signup/page.js:105 | the scan for a special character holds exactly when some position holds printable ASCII punctuation other than backquote and tilde |
| `PasswordRules.ErrorText` | app/auth/signup/page.js:126-164 | the text `setError` leaves: "" on acceptance, the failed check's message on rejection |
| `PasswordRules.SomeCharExists` | app/auth/signup/page.js:102-105 | the left-to-right `some` scan over the password holds exactly when some position satisfies the class test |
| `PasswordRules.UppercaseLettersAreAToZ` | app/auth/signup/page.js:12 | a character is in the upper-case list exactly when it lies in `A`..`Z` |
| `PasswordRules.LowercaseLettersAreAToZ` | app/auth/signup/page.js:13 | a character is in the lower-case list exactly when it lies in `a`..`z` |
| `PasswordRules.DigitsAreZeroToNine` | app/auth/signup/page.js:14 | a character is in the digit list exactly when it lies in `0`..`9` |
| `PasswordRules.SpecialCharactersAreThirty` | app/auth/signup/page.js:15-46 | the special list has thirty entries and contains neither space, `~` nor backquote |
| `PasswordRules.SpecialCharactersArePunctuation` | app/auth/signup/page.js:15-46 | the special list is exactly the printable ASCII punctuation `!`..`/`, `:`..`@`, `[`..`_`, `{`..`}` |
| `PasswordRules.ClassesAreDisjoint` | app/auth/signup/page.js:12-46 | no character belongs to two of the four classes |
| `PasswordRules.NonAsciiCountsForNoClass` | app/auth/signup/page.js:12-46 | a character with code 128 or more is in none of the four classes |
| `PasswordRules.ErrorMsg` | app/auth/signup/page.js:108-118 | every check has a non-empty message |
| `PasswordRules.ErrorMsgInjective` | app/auth/signup/page.js:108-118 | different checks have different messages, so the message identifies the failed check |
| `PasswordRules.Validate` | app/auth/signup/page.js:121-167 | acceptance means every check passes; a rejection names a check that fails and that every earlier check passes |
| `PasswordRules.ValidateAcceptsIffAllPass` | app/auth/signup/page.js:126-166 | the form is accepted if and only if all nine checks pass |
| `PasswordRules.ReportsTheFirstFailure` | app/auth/signup/page.js:126-161 | the failing check all of whose predecessors pass is the one reported: exactly one message per rejection |
| `PasswordRules.ErrorTextEmptyIffAccept` | app/auth/signup/page.js:126-166 | the shown error is empty exactly on acceptance |
| `PasswordRules.EmptyEmailIsReported` | app/auth/signup/page.js:126-129 | an empty email gives "Missing email" whatever the password fields hold |
| `PasswordRules.MismatchIsReportedBeforeStrength` | app/auth/signup/page.js:134-145 | with an email and a password present, a mismatching confirmation is reported before any length or class check |
| `PasswordRules.SevenCharactersAreTooShort` | app/auth/signup/page.js:138-141 | with a non-empty email, a matching 7-character password is rejected with the at-least-8 message |
| `PasswordRules.SeventeenCharactersAreTooLong` | app/auth/signup/page.js:142-145 | with a non-empty email, a matching 17-character password is rejected with the at-most-16 message |
| `PasswordRules.AcceptedExactlyWhen` | app/auth/signup/page.js:121-167 | accepted if and only if the email is non-empty, the confirmation matches, the length is 8 to 16 and the password has a `0`-`9`, an `a`-`z`, an `A`-`Z` and a listed special character |
| `PasswordRules.AcceptedExample` | app/auth/signup/page.js:121-167 | `Passw0rd!` with an email and a matching confirmation is accepted |
| `PasswordRules.TildeIsNotSpecial` | app/auth/signup/page.js:158-161 | `Passw0rd~` passes every check before the special one and is rejected for lacking a special character |
| `PasswordRules.NonAsciiUppercaseDoesNotCount` | app/auth/signup/page.js:154-157 | the 8-character password `ÄÖÜ0ab!x`, whose only capitals are non-ASCII, passes every check before the upper-case one and is rejected for lacking an upper-case character |
| `SignUpPage.SignUpFailedAlert` | app/auth/signup/page.js:80 | the failure alert is the prefix "Sign up failed: " followed by the error message of the failed call |
| `SignUpPage.SignUpForm.constructor` | app/auth/signup/page.js:50-53 | a new form has all three fields and the error empty |
| `SignUpPage.SignUpForm.SetEmail` | app/auth/signup/page.js:182 | the email input handler stores the typed value |
| `SignUpPage.SignUpForm.SetPassword` | app/auth/signup/page.js:189 | the password input handler stores the typed value |
| `SignUpPage.SignUpForm.SetConfirmedPassword` | app/auth/signup/page.js:196 | the confirmation input handler stores the typed value |
| `SignUpPage.SignUpForm.CheckError` | app/auth/signup/page.js:121-167 | returns true iff `Validate` accepts; `error` becomes the first failure's message or "" on acceptance; the fields are unchanged |
| `SignUpPage.SignUpForm.HandleSignUp` | app/auth/signup/page.js:58-82 | creation is attempted iff the checks accept; the fields are cleared, the login page opened and success alerted only when creation succeeds; on a failed creation the fields are unchanged and the failure alert carries the message; on rejection there is no alert and no navigation |
| `LoginPage.DashboardPath` | app/auth/login/page.js:44 | the route is `/dashboard/` followed by the uid |
| `LoginPage.DashboardPathInjective` | app/auth/login/page.js:44 | different uids give different dashboard routes |
| `LoginPage.LoginGuard` | app/auth/login/page.js:25-32 | no alert exactly when email and password are both non-empty; any alert is one of the two missing-field alerts |
| `LoginPage.EmailIsCheckedFirst` | app/auth/login/page.js:25-28 | an empty email gives "Missing email!" whatever the password holds |
| `LoginPage.MissingPasswordNeedsEmail` | app/auth/login/page.js:29-32 | "Missing password!" is given exactly when the email is present and the password empty |
| `LoginPage.AlreadySignedInRedirect` | app/auth/login/page.js:66-71 | a redirect happens exactly when a user is present, to `/dashboard/` followed by that user's uid |
| `LoginPage.LoginForm.constructor` | app/auth/login/page.js:14-15 | a new form has both fields empty |
| `LoginPage.LoginForm.SetEmail` | app/auth/login/page.js:84 | the email input handler stores the typed value |
| `LoginPage.LoginForm.SetPassword` | app/auth/login/page.js:91 | the password input handler stores the typed value |
| `LoginPage.LoginForm.HandleLogin` | app/auth/login/page.js:21-49 | sign-in is attempted iff both fields are non-empty; otherwise the guard's alert is raised and nothing changes; on success both fields become "" and the target is the user's dashboard; on failure the fields are unchanged, there is no navigation and the alert is "Login failed. Please try again." |

## Left out

- The identity provider calls for account creation and email sign-in are external network calls; each appears only as an outcome parameter of the step that makes it. Popup sign-in is not modelled at all (see the next line).
- The Google and Facebook sign-up and login handlers (app/auth/signup/page.js:85-94, app/auth/login/page.js:52-64) are provider flows around the same external calls and are not modelled.
- Rendering, `alert`, `console.error`, `router.push` and `preventDefault` are side effects: the alert text and navigation target are returned as values, the rest is dropped.
- `SignUpForm.HandleSignUp` and `LoginForm.HandleLogin` are single atomic steps. In the page, the `await` on the external call (app/auth/signup/page.js:68, app/auth/login/page.js:36) lets the input handlers or a second submit run before the call finishes; the model does not capture that interleaving.
- React state updates are asynchronous and batched; the model applies them in program order, as a single submit sees them.
- Lengths count Unicode scalar values (Dafny `char`), while the page counts UTF-16 code units; the two differ only for characters outside the Basic Multilingual Plane, which the model does not represent as two units.
- The authentication context (app/context/authContext.js), the root redirect (app/page.js), the image-scan and CSV-export endpoints (pages/api/) and the dashboard page with its inventory merge, search and pagination (app/dashboard/[uid]/page.js) are not part of this model.
