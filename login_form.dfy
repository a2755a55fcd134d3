/** The login form: its schema over email and password, and the callbacks
    the submit handler attaches to the sign-in request. */
module LoginForm {
  import opened FormCore
  import SignUpForm

  const PASSWORD_REQUIRED := "Password required"
  const AFTER_LOGIN := "/"

  datatype Draft = Draft(email: string, password: string)

  /** The inputs as they are when empty: at mount and after reset. */
  const CLEARED := Draft("", "")

  /** The drafts the form lets through, stated directly: a well-formed email
      and any non-empty password (no six-character minimum here). */
  predicate Submittable(d: Draft, isEmail: string -> bool)
  {
    d.email != "" && isEmail(d.email) && d.password != ""
  }

  /** The schema: the shared email rule, and a password that is rejected
      exactly when it is empty. */
  function Validate(d: Draft, isEmail: string -> bool): (errs: ErrorMap)
    ensures errs.Keys <= {"email", "password"}
    ensures "email" in errs <==> !(d.email != "" && isEmail(d.email))
    ensures "email" in errs ==> errs["email"] == EmailIssues(d.email, isEmail)
    ensures "password" in errs <==> d.password == ""
    ensures "password" in errs ==> errs["password"] == [PASSWORD_REQUIRED]
    ensures errs == map[] <==> Submittable(d, isEmail)
  {
    var errs := WithField(map[], "email", EmailIssues(d.email, isEmail));
    var errs := WithField(errs, "password", Issue(MinLength(d.password, 1), PASSWORD_REQUIRED));
    assert errs == map[] <==> !("email" in errs || "password" in errs);
    errs
  }

  /** An empty email's first message is "Email required". */
  lemma EmptyEmailRequired(d: Draft, isEmail: string -> bool)
    requires d.email == ""
    ensures "email" in Validate(d, isEmail)
    ensures Validate(d, isEmail)["email"][0] == EMAIL_REQUIRED
  {
  }

  /** A non-empty, badly formed email gets exactly "Invalid email address". */
  lemma MalformedEmailRejected(d: Draft, isEmail: string -> bool)
    requires d.email != "" && !isEmail(d.email)
    ensures "email" in Validate(d, isEmail)
    ensures Validate(d, isEmail)["email"] == [INVALID_EMAIL]
  {
  }

  /** Whatever the sign-up form accepts, logging in with the same email and
      password passes the login form's schema. */
  lemma SignUpCredentialsPassLogin(d: SignUpForm.Draft, isEmail: string -> bool)
    requires SignUpForm.Validate(d, isEmail) == map[]
    ensures Validate(Draft(d.email, d.password), isEmail) == map[]
  {
  }

  /** The form's state as the sign-in callbacks see it. The handler does not
      await the request and keeps no loading flag: it returns at once, and
      `Settle` is the `then`/`catch` callback that runs when the request
      settles. */
  class Form {
    var draft: Draft
    var rootError: Option<string>
    var route: Option<string>

    constructor ()
      ensures draft == CLEARED && rootError == None && route == None
    {
      draft := CLEARED;
      rootError := None;
      route := None;
    }

    /** The user edits the inputs. */
    method Input(d: Draft)
      modifies this
      ensures draft == d && rootError == old(rootError) && route == old(route)
    {
      draft := d;
    }

    /** On success the form is reset and the user sent to "/"; on failure
      the provider's message becomes the form-level error verbatim, with no
      reset and no navigation. */
    method Settle(result: AuthResult)
      modifies this
      ensures result.AuthOk? ==>
        draft == CLEARED && route == Some(AFTER_LOGIN) && rootError == old(rootError)
      ensures result.AuthError? ==>
        rootError == Some(result.message) && draft == old(draft) && route == old(route)
    {
      match result {
        case AuthOk =>
          draft := CLEARED;
          route := Some(AFTER_LOGIN);
        case AuthError(message) =>
          rootError := Some(message);
      }
    }
  }

  /** A rejected login keeps the draft and does not navigate. */
  method RejectedLogin(d: Draft, reason: string)
  {
    var form := new Form();
    form.Input(d);
    form.Settle(AuthError(reason));
    assert form.draft == d && form.route == None && form.rootError == Some(reason);
  }
}
