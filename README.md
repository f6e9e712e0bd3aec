# CareerLaunch site logic, modelled in Dafny

CareerLaunch is a marketing site for a coding bootcamp. Apart from its markup and
animations, it holds a little logic:

- a demo session kept in the browser's `localStorage` under the key `careerlaunch_user`;
- a `useAuth` hook that mirrors that session in the view and follows other tabs through the `storage` event;
- a sign-in path that decodes a Google ID token, a JSON Web Token (RFC 7519) in JWS compact serialisation (section 7.1 of RFC 7515), without checking its signature;
- a static catalog of six courses and the pages that look courses up, link to them and show them;
- three client-side forms (enrollment, contact, login) with schema validation and simulated submissions.

This project models that logic and proves what the code promises about it.

| module (file) | source | form |
|---|---|---|
| `Session` (session.dfy) | src/lib/auth.ts | `SessionStore` class over `map<string,string>`; JSON-shaped codec with a proved round trip |
| `AuthHook` (auth_hook.dfy) | src/hooks/useAuth.ts | `AuthHook` class (`user`, `isLoading`, listener flag); pure event reaction; cross-tab theorem |
| `GoogleAuth` (google_auth.dfy) | src/lib/googleAuth.ts | pure token pipeline; `HandleGoogleSignIn` / `SignOutFromGoogle` methods on the store |
| `Courses` (courses.dfy) | src/data/courses.ts | the catalog constant and the lookup |
| `CoursesSection` (courses_section.dfy) | src/components/CoursesSection.tsx | icon switch, card link |
| `CourseDetail` (course_detail.dfy) | src/pages/CourseDetail.tsx | fallback, enroll link, initials, `ModuleAccordion` class |
| `CourseEnrollment` (course_enrollment.dfy) | src/pages/CourseEnrollment.tsx | schema, wizard steps, `EnrollmentPage` class |
| `ContactSection` (contact_section.dfy) | src/components/ContactSection.tsx | schema, `ContactSection` class |
| `Login` (login.dfy) | src/pages/Login.tsx | schema, `LoginPage` class driving an `AuthHook` |
| `Strings`, `Wrappers` | shared | JavaScript `split`/`join` on one character; `Option` |

Conventions:

- `null` and `undefined` are `None`.
- A function that throws and is caught becomes a `None` result.
- The listener's unguarded parse is a `ParseThrows` reaction.
- Each `async` handler is split at its `await` into two methods. The first runs up to the simulated delay (`Submit`, `BeginGoogleLogin`). The second runs once the delay settles (`FinishSubmit`, `FinishGoogleLogin`). So the flags can be seen set during a submission and cleared after it.
- Validation happens before a handler runs: `form.handleSubmit` calls the handler only when the schema accepts the form. So each `Submit` starts exactly when `FormValid` holds.
- The wizard's step methods take no form values, so step changes never depend on field contents.
- The enrollment page looks its course up the same way the detail page does (src/pages/CourseEnrollment.tsx:41, 136-146). `CourseDetail.Render` states that lookup and its fallback once, for both pages.

`getCurrentUser` recovers a failed parse into `null` (src/lib/auth.ts:15-20), but the hook's `storage` listener calls `JSON.parse` unguarded (src/hooks/useAuth.ts:17). The model follows the code. A malformed value written by another tab makes the listener throw, and `user` keeps its old value.

## Model

| member | source | states |
|---|---|---|
| Session.DecodeEncode | src/lib/auth.ts:17-25 | reading back what `setUser` serialised gives the same record: `Decode(Encode(u)) == Some(u)` |
| Session.EscapeChar | src/lib/auth.ts:25 | `JSON.stringify` writes a character unchanged exactly when it is not a quote, a backslash or a control character below U+0020; each of those becomes an escape starting with a backslash |
| Session.Encode | src/lib/auth.ts:25 | the stored text is an object text: it starts with the `{"id":` property and ends in `}` |
| Session.ReadEscapeChar | src/lib/auth.ts:17 | every escape `JSON.stringify` writes is read back by `JSON.parse`'s escape grammar as the one character it stands for, consuming exactly the escape |
| Session.ReadBodyEscaped | src/lib/auth.ts:17-25 | the escaped contents of any string, followed by the closing quote, read back as that string, leaving the rest of the text |
| Session.Decode | src/lib/auth.ts:17 | the parse of the empty string fails |
| Session.UndefinedEscapeRejected | src/lib/auth.ts:17 | an undefined escape such as `\a` inside a string makes the parse fail, as `JSON.parse` throws on it |
| Session.RawLineBreakRejected | src/lib/auth.ts:17 | a raw line feed inside a string makes the parse fail, as `JSON.parse` throws on it |
| Session.UndefinedEscapeFails | src/lib/auth.ts:17 | for every string body: after any run of characters that need no escape, a backslash followed by a letter other than `" \ / b f n r t u` makes the read fail |
| Session.RawControlFails | src/lib/auth.ts:17 | for every string body: after any run of characters that need no escape, a raw character below U+0020 makes the read fail |
| Session.EscapedLineBreakRead | src/lib/auth.ts:17 | the escape `\n` inside a string is read as a line feed |
| Session.StoredUser | src/lib/auth.ts:14-21 | `getCurrentUser` fails soft: `None` when the key is absent or its text does not parse; a user only when the key holds text that decodes to it |
| Session.SessionStore.GetCurrentUser | src/lib/auth.ts:14-21 | returns `StoredUser(storage)` and changes nothing |
| Session.SessionStore.SetUser | src/lib/auth.ts:24-26 | only the session key changes (every other key keeps presence and value), and the user is read back afterwards |
| Session.SessionStore.Logout | src/lib/auth.ts:29-31 | only the session key is removed; afterwards no user is read back |
| Session.SessionStore.IsAuthenticated | src/lib/auth.ts:34-36 | true exactly when `getCurrentUser` yields a user; storage unchanged |
| Session.SetThenGet | src/lib/auth.ts:14-26 | a write followed by a read returns the written user, whatever else storage holds |
| Session.LastWriterWins | src/lib/auth.ts:25 | of two consecutive writes the second is read back |
| Session.LogoutThenGet | src/lib/auth.ts:29-36 | after logout nothing is read back, so `isAuthenticated` is false |
| AuthHook.React | src/hooks/useAuth.ts:15-20 | events for other keys are ignored; for the session key (proved equal to the store's `SESSION_KEY`) a missing or empty value clears the user, a decodable value sets it, anything else throws |
| AuthHook.AuthHook.constructor | src/hooks/useAuth.ts:5-6 | before mount `user` is null and `isLoading` is true, with no listener |
| AuthHook.AuthHook.Mount | src/hooks/useAuth.ts:8-12 | after mount `user` is the store's current user, `isLoading` is false and the listener is registered |
| AuthHook.AuthHook.Unmount | src/hooks/useAuth.ts:22-23 | the clean-up removes the listener and keeps `user` and `isLoading` |
| AuthHook.AuthHook.HandleStorageChange | src/hooks/useAuth.ts:15-20 | while listening, `user` follows `React`; a parse failure is reported and leaves `user` as it was; before mount events change nothing |
| AuthHook.AuthHook.Login | src/hooks/useAuth.ts:26-29 | the store holds exactly the user's serialisation under the session key and `user` is that user |
| AuthHook.AuthHook.Logout | src/hooks/useAuth.ts:31-34 | the session key is removed and `user` is null; view and store agree |
| AuthHook.AuthHook.IsAuthenticated | src/hooks/useAuth.ts:39 | true exactly when `user` is not null |
| AuthHook.WriteEventSetsUser | src/hooks/useAuth.ts:16-18 | the event for another tab's `setUser(u)` sets the view's user to `u`, whatever it was |
| AuthHook.OneWriteKeepsSync | src/hooks/useAuth.ts:16-18 | one `setUser`/`logout` in another tab, with the events the browser delivers for it, keeps a synced view synced |
| AuthHook.CrossTabSync | src/hooks/useAuth.ts:15-22 | after any sequence of other-tab writes, a view that agreed with storage at mount agrees with the final storage |
| Strings.Split | src/lib/googleAuth.ts:49 | `split` yields separator-free pieces, one more than the separators, whose join is the input |
| Strings.SplitJoin | src/pages/CourseDetail.tsx:181 | splitting a join of separator-free pieces gives the pieces back |
| GoogleAuth.PayloadSegment | src/lib/googleAuth.ts:49 | the second segment exists exactly when the token has a '.', and it holds no '.' |
| GoogleAuth.PayloadOfCompact | src/lib/googleAuth.ts:49 | for `header.payload.signature` the segment taken is the payload, whatever header and signature hold |
| GoogleAuth.ReplaceAll | src/lib/googleAuth.ts:50 | a global one-character replace keeps the length and changes exactly the matching positions |
| GoogleAuth.ToStandardAlphabet | src/lib/googleAuth.ts:50 | `-` becomes `+`, `_` becomes `/`, every other character and the length are kept, and the result has no `-` or `_` |
| GoogleAuth.ToHex | src/lib/googleAuth.ts:54 | `toString(16)` is never empty |
| GoogleAuth.ToHexOfByte | src/lib/googleAuth.ts:54 | a byte's hexadecimal numeral has one digit below 16 and two digits from 16 on |
| GoogleAuth.PercentByte | src/lib/googleAuth.ts:54 | `'%' + ('00' + hex).slice(-2)` is `%` and the byte's two lower-case hex digits |
| GoogleAuth.PercentEncode | src/lib/googleAuth.ts:52-55 | the expansion is three times as long as the decoded bytes |
| GoogleAuth.PercentEncodeAt | src/lib/googleAuth.ts:53-55 | byte `i` sits at positions `3i..3i+2` as `%`, high digit, low digit |
| GoogleAuth.PercentRoundTrip | src/lib/googleAuth.ts:51-55 | the expansion loses nothing: reading the `%hh` groups back gives the bytes |
| GoogleAuth.DecodePayload | src/lib/googleAuth.ts:50-57 | a payload `atob` rejects yields null; when `atob` accepts the payload in the standard alphabet and `decodeUriComponent` accepts the percent-encoded bytes, the result is exactly the claim parse of that text; any claims returned arise that way |
| GoogleAuth.DecodeGoogleJWT | src/lib/googleAuth.ts:47-62 | a token with no '.' yields null, not an exception |
| GoogleAuth.DecodeReadsOnlyPayload | src/lib/googleAuth.ts:49-57 | the result depends on the payload segment alone |
| GoogleAuth.ClaimsToUser | src/lib/googleAuth.ts:78-84 | the record takes `sub` as id, the e-mail, `given_name` and `family_name` as first and last names, and is tagged as a Google login |
| GoogleAuth.ClaimsToUserKeepsIdentity | src/lib/googleAuth.ts:78-84 | two claim sets give the same record exactly when they agree on `sub`, e-mail and both names |
| GoogleAuth.SignInResult | src/lib/googleAuth.ts:65-90 | a user is returned exactly when the credential is present, non-empty and decodes; a missing or empty credential yields null; any user returned is tagged as a Google login |
| GoogleAuth.HandleGoogleSignIn | src/lib/googleAuth.ts:65-90 | returns `SignInResult`; on null the store is untouched; on a user exactly that user is saved and read back |
| GoogleAuth.SignInMapsClaims | src/lib/googleAuth.ts:78-84 | a decodable token yields `{id: sub, email, firstName: given_name, lastName: family_name, loginMethod: 'google'}` |
| GoogleAuth.SignInOfCompactToken | src/lib/googleAuth.ts:47-84 | a `header.payload.signature` credential whose payload `atob`, `decodeUriComponent` and the claim parse all accept signs in exactly the user `{id: sub, email, firstName: given_name, lastName: family_name, loginMethod: 'google'}` of those claims |
| GoogleAuth.SignInRejectsUndotted | src/lib/googleAuth.ts:66-75 | a credential without '.' signs nobody in |
| GoogleAuth.SignOutFromGoogle | src/lib/googleAuth.ts:145-150 | the session key is always removed and no user is read back |
| Courses.Find | src/data/courses.ts:272 | `find` returns a member with the wanted id, and `undefined` exactly when no member has it |
| Courses.FindIsFirstMatch | src/data/courses.ts:272 | the course found is the first one in list order with that id |
| Courses.FindDistinct | src/data/courses.ts:272 | in a list with distinct ids, `find` on an element's id returns that element |
| Courses.GetCourseById | src/data/courses.ts:271-273 | a result is a catalog course with the given id; `undefined` exactly when no catalog course has it |
| Courses.CatalogIdsDistinct | src/data/courses.ts:28-269 | six courses with pairwise distinct ids |
| Courses.CatalogShape | src/data/courses.ts:44-265 | every course has four curriculum modules and `jobGuarantee == true` |
| Courses.LookupFindsEachCourse | src/data/courses.ts:271-273 | looking up a catalog course's id returns that very course |
| Courses.EmptyIdNotFound | src/data/courses.ts:272 | the empty id, the pages' fallback for a missing route parameter, finds nothing |
| CoursesSection.IconForCategory | src/components/CoursesSection.tsx:13-30 | the six categories map to their six icons, any other string to `fa-code`; the result is always one of the six |
| CoursesSection.CatalogIcons | src/components/CoursesSection.tsx:14-26 | every catalog category hits a named case, and the six courses show six different icons |
| CoursesSection.CourseLink | src/components/CoursesSection.tsx:161 | the card link is `/course/` followed by the id, which can be read back from it |
| CoursesSection.CourseLinkInjective | src/components/CoursesSection.tsx:161 | different ids give different links |
| CoursesSection.CardLinksDistinct | src/components/CoursesSection.tsx:290-295 | no two catalog cards link to the same page |
| CourseDetail.RouteId | src/pages/CourseDetail.tsx:17-18 | the id looked up is the route parameter when there is one; it is empty exactly when the parameter is missing or empty |
| CourseDetail.Render | src/pages/CourseDetail.tsx:17-72 | "Course Not Found" exactly when no catalog course has the route id (always when there is no id); otherwise the page shows the course with that id |
| CourseDetail.EnrollLink | src/pages/CourseDetail.tsx:124 | the enroll link splits into the course's own link and the `/enroll` suffix |
| CourseDetail.EnrollLinkInjective | src/pages/CourseDetail.tsx:279 | different courses have different enroll links |
| CourseDetail.FirstLetters | src/pages/CourseDetail.tsx:181 | at most one initial per word |
| CourseDetail.FirstLettersAvoid | src/pages/CourseDetail.tsx:181 | a character that occurs in no word is not among the initials |
| CourseDetail.Initials | src/pages/CourseDetail.tsx:181 | the instructor's initials have at most one letter per space-separated piece of the name, and never a space |
| CourseDetail.FirstLettersOfWords | src/pages/CourseDetail.tsx:181 | for non-empty words, one initial per word, equal to its first character |
| CourseDetail.InitialsOfName | src/pages/CourseDetail.tsx:181 | a name of non-empty words separated by single spaces has one initial per word, that word's first character |
| CourseDetail.InitialsOfSarahChen | src/pages/CourseDetail.tsx:181 | "Sarah Chen" gives "SC" |
| CourseDetail.ToggleModule | src/pages/CourseDetail.tsx:222 | clicking module `i` opens it exactly when it was not open, and collapses all exactly when it was |
| CourseDetail.ToggleTwice | src/pages/CourseDetail.tsx:222 | two clicks on the same module restore the state exactly when that state was that module or -1 |
| CourseDetail.ExpandedModules | src/pages/CourseDetail.tsx:232 | at most one module shows its topics: the one whose index is `activeModule` |
| CourseDetail.ModuleAccordion.constructor | src/pages/CourseDetail.tsx:21 | `activeModule` starts at 0 |
| CourseDetail.ModuleAccordion.Click | src/pages/CourseDetail.tsx:222 | the click applies `ToggleModule`: the clicked module is shown afterwards exactly when it was not before |
| CourseEnrollment.Errors | src/pages/CourseEnrollment.tsx:21-34 | for each of the seven checked fields, the schema reports an error on it exactly when its rule fails: empty first name, last name or experience; a failed e-mail check; phone under 10 or motivation under 50 characters; terms not agreed |
| CourseEnrollment.FormValid | src/pages/CourseEnrollment.tsx:21-34 | valid exactly when first name, last name and experience are non-empty, the e-mail passes, phone has 10+ and motivation 50+ characters, and the terms are agreed |
| CourseEnrollment.TermsRequired | src/pages/CourseEnrollment.tsx:30 | without `agreeTerms` the form is invalid whatever else it holds |
| CourseEnrollment.OptionalFieldsIrrelevant | src/pages/CourseEnrollment.tsx:28-33 | `hasLaptop`, `canCommitTime` and the three optional fields never change the errors |
| CourseEnrollment.StepAfterNext | src/pages/CourseEnrollment.tsx:124-128 | `nextStep` adds exactly 1 below step 3 and does nothing from step 3 on |
| CourseEnrollment.StepAfterPrev | src/pages/CourseEnrollment.tsx:130-134 | `prevStep` subtracts exactly 1 above step 1 and does nothing at step 1 or below |
| CourseEnrollment.StepsStayInRange | src/pages/CourseEnrollment.tsx:124-134 | both steps keep 1..3, and inside it each undoes the other |
| CourseEnrollment.EnrolledPath | src/pages/CourseEnrollment.tsx:110 | the redirect splits into the enrolled course's own link and the `?enrolled=true` query |
| CourseEnrollment.EnrolledPathInjective | src/pages/CourseEnrollment.tsx:110 | different courses redirect to different paths, so the redirect leads back to the course enrolled in |
| CourseEnrollment.EnrollmentPage.constructor | src/pages/CourseEnrollment.tsx:43-44 | the wizard starts at step 1, not submitting |
| CourseEnrollment.EnrollmentPage.NextStep | src/pages/CourseEnrollment.tsx:124-128 | the step follows `StepAfterNext`, stays within 1..3, and nothing else changes |
| CourseEnrollment.EnrollmentPage.PrevStep | src/pages/CourseEnrollment.tsx:130-134 | the step follows `StepAfterPrev`, stays within 1..3, and nothing else changes |
| CourseEnrollment.EnrollmentPage.Submit | src/pages/CourseEnrollment.tsx:96-97 | the handler starts exactly for a valid form, and `isSubmitting` is then true, so the submit button is disabled; step, toast and redirect are kept |
| CourseEnrollment.EnrollmentPage.FinishSubmit | src/pages/CourseEnrollment.tsx:99-121 | `isSubmitting` ends false on both paths, so the button is enabled again; success shows the toast and schedules the `?enrolled=true` redirect; when the code after the delay throws, the failure toast shows and no redirect is scheduled |
| ContactSection.Errors | src/components/ContactSection.tsx:16-24 | for each of the five checked fields, the schema reports an error on it exactly when its rule fails: empty first name, last name, course or message; a failed e-mail check |
| ContactSection.FormValid | src/components/ContactSection.tsx:16-24 | valid exactly when first name, last name, course and message are non-empty and the e-mail passes |
| ContactSection.BadEmailInvalid | src/components/ContactSection.tsx:19 | an address failing the e-mail check makes the form invalid |
| ContactSection.OptionalFieldsIrrelevant | src/components/ContactSection.tsx:20-23 | phone and newsletter never change the errors |
| ContactSection.OnlyFirstNameMissing | src/components/ContactSection.tsx:17 | a form complete but for the first name has exactly one error, on that field |
| ContactSection.ContactSection.constructor | src/components/ContactSection.tsx:32-48 | the form starts at its default values, not submitting |
| ContactSection.ContactSection.Fill | src/components/ContactSection.tsx:151-238 | editing the registered inputs replaces the field values and nothing else |
| ContactSection.ContactSection.Submit | src/components/ContactSection.tsx:88-89 | the handler starts exactly for a valid form, and `isSubmitting` is then true, so the submit button is disabled; the fields and the toast are kept |
| ContactSection.ContactSection.FinishSubmit | src/components/ContactSection.tsx:92-108 | `isSubmitting` ends false on both paths, so the button is enabled again; after success the toast shows and every field is back at its default; when the code after the delay throws, the failure toast shows and the fields are kept |
| Login.Errors | src/pages/Login.tsx:16-19 | the e-mail field has an error exactly when the e-mail check fails, the password field exactly when the password is under 6 characters |
| Login.FormValid | src/pages/Login.tsx:16-19 | valid exactly when the e-mail passes and the password has at least 6 characters |
| Login.DecimalString | src/pages/Login.tsx:57 | `Date.now().toString()` is a non-empty string of decimal digits |
| Login.EmailUser | src/pages/Login.tsx:56-60 | the e-mail login's record carries the entered address, `loginMethod 'email'`, no names, and a non-empty numeric id |
| Login.LoginPage.constructor | src/pages/Login.tsx:24-29 | nothing is loading and Google counts as unavailable until detected |
| Login.LoginPage.DetectGoogle | src/pages/Login.tsx:41-44 | the mount timer records whether Google sign-in is available |
| Login.LoginPage.Submit | src/pages/Login.tsx:49-50 | `onSubmit` starts exactly for a valid form, and `isLoading` is then true; the Google flags, location and toast are kept |
| Login.LoginPage.FinishSubmit | src/pages/Login.tsx:53-72 | the hook and the store hold the e-mail user (only the session key changes); `isLoading` is false, the success toast shows and the location is "/"; the Google flags and the hook's loading and listener state are kept |
| Login.LoginPage.BeginGoogleLogin | src/pages/Login.tsx:75-85 | when Google is unavailable only the toast changes (no `login`); otherwise `isGoogleLoading` is set and the toast kept; `isLoading`, location and `googleAvailable` are kept either way |
| Login.LoginPage.FinishGoogleLogin | src/pages/Login.tsx:87-106 | on a user, `login` with exactly that user (only the session key changes), the success toast and go to "/"; on failure, hook, store and location unchanged and the failure toast; `isGoogleLoading` ends false either way; `isLoading`, `googleAvailable` and the hook's loading and listener state are kept |

## Left out

- Animation timelines, hover tweens and the hero counters: they run in a foreign animation library, with floating-point durations and easing.
- Navigation, hash scrolling, the footer and the spotlight card: DOM event plumbing and markup.
- The Google Identity Services client (`initializeGoogleSignIn`, the `prompt` in `signInWithGoogle`, `renderGoogleButton`, `disableAutoSelect`): it drives a globally injected foreign object.
- `isGoogleSignInAvailable`: it reads an environment variable. Its value is the parameter of `DetectGoogle`.
- `signInWithGoogle` is modelled only through what its promise settles with. That is the parameter of `FinishGoogleLogin`, and its success value is `HandleGoogleSignIn`'s result.
- `atob`, `decodeURIComponent` and the `JSON.parse` of the claims are foreign. They are the partial functions of `GoogleAuth.Primitives`, with nothing assumed about them. `atob` returns bytes, so every character code is below 256 by type.
- The zod e-mail check is foreign. It is the parameter `isEmail`.
- UTF-16: JavaScript strings are sequences of UTF-16 code units, and the model's strings are sequences of Unicode scalar values. Two things differ for characters outside the Basic Multilingual Plane. First, zod's length checks count such a character twice and the model counts it once. Second, `n[0]` in the instructor's initials takes only its first surrogate, and `CourseDetail.Initials` takes the whole character.
- Session.Decode: string contents follow the JSON string grammar (section 7 of RFC 8259): every escape `\" \\ \/ \b \f \n \r \t \uXXXX` is read, surrogate pairs are combined, and an undefined escape or a raw control character below U+0020 is refused, as `JSON.parse` refuses them. It is stricter than `JSON.parse` in two ways. (1) The object must have exactly the property layout and order `Encode` writes, with no white space; `JSON.parse` accepts any JSON, and `getCurrentUser` would return values such as `{}` as they are, where the model reads a failed parse. (2) A `\u` escape of an unpaired surrogate is a failed parse, because a model string cannot hold a lone surrogate; `JSON.parse` keeps it as a lone code unit.
- AuthHook.React: the `storage` listener parses with the same stricter decoder. When another tab writes JSON outside `Encode`'s layout under `careerlaunch_user`, such as `null` or `{}`, the listener sets `user` to `null` or to `{}` (which then counts as authenticated). The model reads it as `ParseThrows` and keeps the old user.
- `localStorage.setItem` can throw when storage is full. That is not modelled: `setUser` always succeeds.
- Timers and toasts: each simulated delay is the split between the two methods of a handler. The enrollment redirect that fires 2 s after `isSubmitting` clears is modelled as the scheduled `redirect`. A toast is modelled only as the last one shown.
- The simulated delays never reject, in any of the three forms. The enrollment and contact handlers wrap their body in `try`/`catch`, so their error path is reached only when the code after the delay throws; that is the `handlerThrew` parameter of their `FinishSubmit`. Login's `onSubmit` has no `catch` at all, so it has no error path in the model.
- The user's session on other tabs is modelled as the sequence of writes they make and the `storage` events the browser delivers for them. Event timing and interleaving are not modelled.
- Token signatures are never verified by the code, and none is modelled.
- GoogleAuth.SignInResult: the claim set is a `GoogleUser` whose `sub` and `email` are strings. The code declares that type but does not check it: a payload such as `{}` parses, and `handleGoogleSignIn` returns a user whose `id` and `email` are `undefined` (and stores it with those properties omitted). The model cannot express such a claim set, so it says nothing about that case.
