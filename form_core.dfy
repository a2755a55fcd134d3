/** Values and schema behaviours shared by the four forms.

    A schema turns a draft (the raw input values) into an error map: for each
    field whose checks fail, the messages of the failing checks in the order
    the schema declares them. Every failing check is reported (string length
    checks, the email check and refinements do not stop the checks after
    them), and a field without failures has no key at all, so an empty map
    means the draft is accepted. */
module FormCore {

  datatype Option<+T> = None | Some(value: T)

  /** One entry of a browser FileList: its size in bytes and its MIME type. */
  datatype File = File(size: nat, mimeType: string)

  /** Field name (or "root" for the form-level slot) to its messages. */
  type ErrorMap = map<string, seq<string>>

  /** What an identity-provider call settles to: success, or the message of
      the error it rejects with. */
  datatype AuthResult = AuthOk | AuthError(message: string)

  /** How many UTF-16 code units JavaScript uses for one character: two for a
      character outside the Basic Multilingual Plane, one otherwise. */
  function CodeUnits(c: char): nat
  {
    if c as int >= 0x1_0000 then 2 else 1
  }

  /** JavaScript's String.length, which the schemas' length checks compare
      against: it counts UTF-16 code units, not characters. */
  function JsLength(s: string): (n: nat)
    ensures |s| <= n <= 2 * |s|
    ensures n == 0 <==> s == []
  {
    if s == [] then 0 else CodeUnits(s[0]) + JsLength(s[1..])
  }

  /** Every character lies in the Basic Multilingual Plane. */
  predicate InBmp(s: string)
  {
    forall i :: 0 <= i < |s| ==> s[i] as int < 0x1_0000
  }

  /** For text without astral characters the JavaScript length is the
      number of characters. */
  lemma {:induction false} JsLengthInBmp(s: string)
    requires InBmp(s)
    ensures JsLength(s) == |s|
  {
    if s != [] {
      assert s[0] as int < 0x1_0000;
      assert forall i :: 0 <= i < |s[1..]| ==> s[1..][i] == s[i + 1];
      JsLengthInBmp(s[1..]);
    }
  }

  /** A length check `.min(n)` on a string. */
  predicate MinLength(s: string, n: nat)
  {
    JsLength(s) >= n
  }

  /** The contribution of one check: nothing when it holds, its message
      otherwise. */
  function Issue(holds: bool, message: string): seq<string>
  {
    if holds then [] else [message]
  }

  /** Records the issues of one field; a field without issues gets no key. */
  function WithField(errs: ErrorMap, field: string, issues: seq<string>): ErrorMap
  {
    if issues == [] then errs else errs[field := issues]
  }

  const EMAIL_REQUIRED := "Email required"
  const INVALID_EMAIL := "Invalid email address"

  /** The email rule the sign-up and login schemas share: a length check
      with "Email required", then the email-format check with "Invalid email
      address". `isEmail` stands for the schema library's email pattern,
      which the model leaves uninterpreted. The first message of an empty
      email is always "Email required"; a non-empty one fails only the
      format check. */
  function EmailIssues(email: string, isEmail: string -> bool): (issues: seq<string>)
    ensures email == "" ==> |issues| >= 1 && issues[0] == EMAIL_REQUIRED
    ensures email != "" ==> (issues == [] <==> isEmail(email))
    ensures email != "" && issues != [] ==> issues == [INVALID_EMAIL]
    ensures issues == [] <==> email != "" && isEmail(email)
  {
    Issue(MinLength(email, 1), EMAIL_REQUIRED) + Issue(isEmail(email), INVALID_EMAIL)
  }
}
