/** The sign-up form: its schema over email, password and the repeated
    password, and the submit handler around account creation. */
module SignUpForm {
  import opened FormCore

  const PASSWORD_TOO_SHORT := "Password must be longer than 6 characters"
  const VERIFY_TOO_SHORT := "Verify password must be longer than 6 characters"
  const PASSWORDS_DIFFER := "Passwords do not match"
  const AFTER_SIGN_UP := "/login"

  datatype Draft = Draft(email: string, password: string, verifyPassword: string)

  /** The inputs as they are when empty: at mount and after reset. */
  const CLEARED := Draft("", "", "")

  /** The drafts the form lets through, stated directly: a well-formed
      email, a password of at least six code units, and the same password
      twice (so the repeated password's own length rule adds nothing). */
  predicate Submittable(d: Draft, isEmail: string -> bool)
  {
    d.email != "" && isEmail(d.email) &&
    JsLength(d.password) >= 6 &&
    d.password == d.verifyPassword
  }

  /** The schema. Both password fields carry an independent `>= 6` length
      rule (so six code units pass despite the message's "longer than 6");
      the equality refinement reports on `verifyPassword`, after that
      field's own length message, and never on the form-level slot. */
  function Validate(d: Draft, isEmail: string -> bool): (errs: ErrorMap)
    ensures errs.Keys <= {"email", "password", "verifyPassword"}
    ensures "email" in errs <==> !(d.email != "" && isEmail(d.email))
    ensures "email" in errs ==> errs["email"] == EmailIssues(d.email, isEmail)
    ensures "password" in errs <==> JsLength(d.password) < 6
    ensures "password" in errs ==> errs["password"] == [PASSWORD_TOO_SHORT]
    ensures "verifyPassword" in errs <==>
      JsLength(d.verifyPassword) < 6 || d.password != d.verifyPassword
    ensures d.password != d.verifyPassword ==>
      "verifyPassword" in errs && PASSWORDS_DIFFER in errs["verifyPassword"]
    ensures d.password == d.verifyPassword && "verifyPassword" in errs ==>
      errs["verifyPassword"] == [VERIFY_TOO_SHORT]
    ensures "root" !in errs
    ensures errs == map[] <==> Submittable(d, isEmail)
  {
    var errs := WithField(map[], "email", EmailIssues(d.email, isEmail));
    var errs := WithField(errs, "password", Issue(MinLength(d.password, 6), PASSWORD_TOO_SHORT));
    var errs := WithField(errs, "verifyPassword",
      Issue(MinLength(d.verifyPassword, 6), VERIFY_TOO_SHORT)
        + Issue(d.password == d.verifyPassword, PASSWORDS_DIFFER));
    assert errs == map[] <==> !("email" in errs || "password" in errs || "verifyPassword" in errs);
    errs
  }

  /** An empty email's first message is "Email required", whatever the
      format check says about the empty string. */
  lemma EmptyEmailRequired(d: Draft, isEmail: string -> bool)
    requires d.email == ""
    ensures "email" in Validate(d, isEmail)
    ensures Validate(d, isEmail)["email"][0] == EMAIL_REQUIRED
  {
  }

  /** A password of exactly six characters is accepted by the length rule
      (astral characters only make its JavaScript length larger). */
  lemma SixCharacterPasswordAccepted(d: Draft, isEmail: string -> bool)
    requires |d.password| == 6
    ensures "password" !in Validate(d, isEmail)
  {
  }

  /** The form's state as the submit handler sees it. `Submit` is the part
      of the handler before account creation is awaited, `Settle` the part
      after it, through the catch and the finally. */
  class Form {
    var draft: Draft
    var loading: bool
    var rootError: Option<string>
    var route: Option<string>

    constructor ()
      ensures draft == CLEARED && !loading && rootError == None && route == None
    {
      draft := CLEARED;
      loading := false;
      rootError := None;
      route := None;
    }

    /** The submit button is enabled exactly while no request is pending. */
    predicate SubmitEnabled()
      reads this
    {
      !loading
    }

    /** The user edits the inputs. */
    method Input(d: Draft)
      modifies this
      ensures draft == d
      ensures loading == old(loading) && rootError == old(rootError) && route == old(route)
    {
      draft := d;
    }

    /** Up to the await: the loading flag is raised and the button disabled. */
    method Submit()
      modifies this
      ensures loading && !SubmitEnabled()
      ensures draft == old(draft) && rootError == old(rootError) && route == old(route)
    {
      loading := true;
    }

    /** On success the form is reset and the user sent to "/login"; on
      failure the provider's message becomes the form-level error verbatim
      and the draft and route are kept; either way loading ends. */
    method Settle(result: AuthResult)
      modifies this
      ensures !loading && SubmitEnabled()
      ensures result.AuthOk? ==>
        draft == CLEARED && route == Some(AFTER_SIGN_UP) && rootError == old(rootError)
      ensures result.AuthError? ==>
        rootError == Some(result.message) && draft == old(draft) && route == old(route)
    {
      match result {
        case AuthOk =>
          draft := CLEARED;
          route := Some(AFTER_SIGN_UP);
        case AuthError(message) =>
          rootError := Some(message);
      }
      loading := false;
    }
  }

  /** A rejected sign-up keeps what the user typed; a retry that succeeds
      clears it and moves on to the login page. */
  method RejectedThenRetried(d: Draft, reason: string)
  {
    var form := new Form();
    form.Input(d);
    form.Submit();
    assert !form.SubmitEnabled();
    form.Settle(AuthError(reason));
    assert form.draft == d && form.rootError == Some(reason) && form.route == None;
    form.Submit();
    form.Settle(AuthOk);
    assert form.draft == CLEARED && form.route == Some("/login") && form.SubmitEnabled();
  }
}
