# Ticket-marketplace forms: validators and submit handlers

This project models the four client-side forms of a ticket-marketplace web
application: create listing, sign up, log in and update profile. It also
proves properties of that model. Each form has two parts:

- a **schema**. It is modelled as a pure function `Validate` from a draft
  (the raw input values) to an error map. The map sends each failing field to
  the messages of its failing checks, in the order the schema declares them.
  A field that passes has no key, so an empty map means the draft is
  accepted. Each `Validate` is tied to a `Submittable` predicate that states
  the rule set directly: the draft passes exactly when it is Submittable.
- a **submit handler**. For the three forms that call out, it is a class
  holding the state the handler changes: the `loading` flag, the form-level
  (`root`) error, the draft that `reset()` clears, and the navigation target.
  A handler that awaits its request is split at the await into `Submit`
  (the part before the request) and `Settle(result)` (the part after it,
  through `catch` and `finally`). The result of the external call is an
  input to `Settle`. The profile form's handler only resets the form, so it
  is a pure function.

The modules are `FormCore` (shared values and rules), `ListingForm`,
`SignUpForm`, `LoginForm` and `ProfileUpdateForm`, one file each.

Modelling decisions:

- **Every failing check is reported.** A string's length check does not
  stop the checks after it, and neither does the email check or a
  refinement. The sign-up form's object-level equality refinement also runs
  when field checks have failed, because every field here is a string.
  Where a message must be "the one shown", the model takes the first
  message of the field. This follows the form library's first-issue-wins
  display.
- **String lengths are JavaScript lengths.** `FormCore.JsLength` counts
  UTF-16 code units, so a character outside the Basic Multilingual Plane
  counts twice. For ordinary text it equals the character count
  (`JsLengthInBmp`).
- **The email format is left open.** Whether a string is email-shaped is
  the `isEmail` parameter. Every property about email is proved for every
  such predicate.
- **`\d` is an ASCII digit.** The phone pattern `^\d{3}-\d{3}-\d{4}$` is a
  sequence of atoms matched against the whole string. `\d` means the
  digits `0`-`9`, as in JavaScript.
- **`reset()` clears the inputs.** It is modelled as restoring every input
  to empty (`CLEARED`).
- **Where the design and the code disagree, the model follows the code.**
  The code has no price field, no upload-then-write pipeline, no size or
  type limit on the avatar, no "name or avatar" rule, and no success
  indicator (the success modal is rendered but never opened). The event
  type is checked only for being non-empty, not against the four options of
  its select. After a successful post, the listing form neither resets nor
  navigates.

## Model

| member | source | states |
|---|---|---|
| `FormCore.JsLength` | src/app/components/forms/sign-up-form.tsx:16-21 | The length the `.min` checks compare against is at least the character count and at most twice it, and it is zero exactly for the empty string |
| `FormCore.JsLengthInBmp` | src/app/components/forms/sign-up-form.tsx:16-21 | For text without astral characters, the checked length is the character count |
| `FormCore.EmailIssues` | src/app/components/forms/sign-up-form.tsx:12-15 | The email chain shared by sign-up and login. An empty email's first message is "Email required". A non-empty email fails only the format check, with exactly "Invalid email address". The email passes iff it is non-empty and well formed |
| `ListingForm.TicketIssues` | src/app/components/forms/listing-form.tsx:23-39 | An empty list gets all three messages. A non-empty list fails the size check iff its first file exceeds 5242880 bytes. It fails the type check iff its first MIME type is not one of image/jpeg, image/jpg, image/png, image/webp. It passes iff both checks hold |
| `ListingForm.Validate` | src/app/components/forms/listing-form.tsx:19-42 | `event`, `date` and `description` are each rejected exactly when empty, each with its own message. `ticket` is rejected exactly when its first file is missing or fails the size or type check. No other key appears. The draft passes iff it is Submittable |
| `ListingForm.UntouchedEventRejected` | src/app/components/forms/listing-form.tsx:59-61 | A draft whose event is the default `""` gets "Event type required" and is not submittable |
| `ListingForm.EmptyTicketRejected` | src/app/components/forms/listing-form.tsx:26-38 | An empty ticket list is rejected with the attachment, size and type messages, in that order |
| `ListingForm.SizeLimitInclusive` | src/app/components/forms/listing-form.tsx:11-32 | With an accepted type, a 5242880-byte file passes and a 5242881-byte file gets only the size message |
| `ListingForm.OnlyFirstFileInspected` | src/app/components/forms/listing-form.tsx:27-39 | Two ticket lists with the same first file give the same error map, whatever follows index 0 |
| `ListingForm.Form.constructor` | src/app/components/forms/listing-form.tsx:57-66 | The form mounts with the default event, nothing loading and no root error |
| `ListingForm.Form.Input` | src/app/components/forms/listing-form.tsx:100-154 | Editing the inputs replaces the draft and leaves loading and the root error alone |
| `ListingForm.Form.Submit` | src/app/components/forms/listing-form.tsx:68-69 | Before the request, loading is raised, so the submit button is disabled. Nothing else changes |
| `ListingForm.Form.Settle` | src/app/components/forms/listing-form.tsx:70-87 | A non-ok response sets root to "Error with creating listing". A thrown error's message goes to root verbatim. An ok response leaves root as it was. Loading is false on every path, and the draft is kept |
| `SignUpForm.Validate` | src/app/components/forms/sign-up-form.tsx:10-26 | The email follows the shared rule. The password is rejected iff its length is below 6, so length 6 passes. `verifyPassword` is rejected iff its own length is below 6 or the passwords differ. A mismatch puts "Passwords do not match" on `verifyPassword`, never on root. The draft passes iff the email is valid, the password has length at least 6 and both passwords are equal |
| `SignUpForm.EmptyEmailRequired` | src/app/components/forms/sign-up-form.tsx:12-15 | An empty email's first message is "Email required", whatever the format check says |
| `SignUpForm.SixCharacterPasswordAccepted` | src/app/components/forms/sign-up-form.tsx:16-18 | A password of exactly six characters passes the length rule |
| `SignUpForm.Form.constructor` | src/app/components/forms/sign-up-form.tsx:37-41 | The form mounts with empty inputs, nothing loading, no root error and no navigation |
| `SignUpForm.Form.Input` | src/app/components/forms/sign-up-form.tsx:66-98 | Editing the inputs replaces the draft. Nothing else changes |
| `SignUpForm.Form.Submit` | src/app/components/forms/sign-up-form.tsx:43-44 | Before account creation, loading is raised and the button disabled. Nothing else changes |
| `SignUpForm.Form.Settle` | src/app/components/forms/sign-up-form.tsx:45-56 | On success the draft is reset and navigation goes to "/login". On failure root is the provider's message verbatim, and the draft and route are kept. Loading is false either way |
| `LoginForm.Validate` | src/app/components/forms/login-form.tsx:9-15 | The email follows the shared rule. The password is rejected iff it is empty, with "Password required" and no longer minimum. The draft passes iff both rules hold |
| `LoginForm.EmptyEmailRequired` | src/app/components/forms/login-form.tsx:12 | An empty email's first message is "Email required" |
| `LoginForm.MalformedEmailRejected` | src/app/components/forms/login-form.tsx:13 | A non-empty email that is not well formed gets exactly "Invalid email address" |
| `LoginForm.SignUpCredentialsPassLogin` | src/app/components/forms/login-form.tsx:9-15 | Any email and password the sign-up schema accepts also pass the login schema |
| `LoginForm.Form.constructor` | src/app/components/forms/login-form.tsx:20-29 | The form mounts with empty inputs, no root error and no navigation |
| `LoginForm.Form.Input` | src/app/components/forms/login-form.tsx:52-68 | Editing the inputs replaces the draft. Nothing else changes |
| `LoginForm.Form.Settle` | src/app/components/forms/login-form.tsx:31-43 | On success the draft is reset and navigation goes to "/". On failure root is the provider's message verbatim, with no reset and no navigation |
| `ProfileUpdateForm.MatchesWholeAtEachPosition` | src/app/components/forms/profile-update-form.tsx:16-17 | An anchored pattern matches a string iff both have the same length and every atom matches its character |
| `ProfileUpdateForm.PositionwisePhoneShaped` | src/app/components/forms/profile-update-form.tsx:16-17 | Matching the phone pattern position by position is the same as having length 12, '-' at indexes 3 and 7, and ASCII digits everywhere else |
| `ProfileUpdateForm.PhonePatternMeaning` | src/app/components/forms/profile-update-form.tsx:16-17 | The phone regex accepts exactly the `NNN-NNN-NNNN` strings |
| `ProfileUpdateForm.PhoneIssues` | src/app/components/forms/profile-update-form.tsx:11-22 | An absent or empty phone number passes. Any other value passes iff it is phone-shaped, and otherwise gets exactly "Invalid phone number format" |
| `ProfileUpdateForm.WellFormedPhoneAccepted` | src/app/components/forms/profile-update-form.tsx:16-17 | "301-405-1000" passes the phone rule |
| `ProfileUpdateForm.PhoneWithoutDashesRejected` | src/app/components/forms/profile-update-form.tsx:16-20 | "3014051000" gets the phone message |
| `ProfileUpdateForm.PhoneWithLetterRejected` | src/app/components/forms/profile-update-form.tsx:16-20 | "301-405-100a" gets the phone message |
| `ProfileUpdateForm.Validate` | src/app/components/forms/profile-update-form.tsx:9-24 | The name is never rejected, including the empty name. The phone number is rejected iff it is present, non-empty and not phone-shaped. The picture is rejected iff it is not a FileList. The draft passes iff it is Submittable |
| `ProfileUpdateForm.AnyFileListAccepted` | src/app/components/forms/profile-update-form.tsx:10-23 | The verdict is the same for any name and for any FileList, of any count, size or type, as for the empty list |
| `ProfileUpdateForm.OnSubmit` | src/app/components/forms/profile-update-form.tsx:40-43 | Submitting makes no call and only resets the form. The inputs it leaves are empty and pass every rule |
| `ProfileUpdateForm.OnSubmitIgnoresDraft` | src/app/components/forms/profile-update-form.tsx:40-43 | What submitting leaves does not depend on what was submitted |

`SubmitEnabled` in the listing and sign-up classes is the button's
`disabled={loading}` negated. It is true exactly while no request is
pending. The methods `ListingForm.FailedThenRetried`,
`SignUpForm.RejectedThenRetried` and `LoginForm.RejectedLogin` are client
scenarios. They use only the classes' contracts.

## Left out

- Firebase's `createUserWithEmailAndPassword`, `signInWithEmailAndPassword` and `getAuth`, and the `fetch` to the listing service, are network I/O. Only their results are modelled, as `AuthResult` and `FetchResult` inputs to `Settle`. The request body is not modelled.
- The schema library's email regex is left uninterpreted (the `isEmail` parameter).
- The form library's wiring is not modelled. This covers running the schema before the handler and calling the handler only for an accepted draft. It also covers the library's own clearing of errors at `reset()` and at each new submit. In the model the handlers change the root error only where their code calls `setError`.
- The model does not force `Settle` to follow `Submit`. The classes model the handler's effects, not the event loop's ordering.
- A value of the picture input other than a FileList is one abstract value, `NotFileList`. Its message is the schema library's default for `instanceof`, which the source does not spell out.
- `console.log` calls, all markup, the navigation bar, the routing pages and the success modal are left out. They take no decisions, and the modal is never opened.
- There is no re-submission lock in the login and profile forms, and nothing models one. The login form's handler does not await its request and keeps no loading flag.
