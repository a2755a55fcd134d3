/** The create-listing form: its schema over event type, date, description
    and ticket picture, and the submit handler that posts the listing and
    keeps the loading flag and the form-level error. */
module ListingForm {
  import opened FormCore

  const MAX_FILE_SIZE: nat := 5 * 1024 * 1024
  const ACCEPTED_IMAGE_TYPES: seq<string> := ["image/jpeg", "image/jpg", "image/png", "image/webp"]

  /** The only default the form declares: no event type is picked. */
  const DEFAULT_EVENT := ""

  const EVENT_REQUIRED := "Event type required"
  const DATE_REQUIRED := "Date required"
  const DESCRIPTION_REQUIRED := "Description required"
  const PICTURE_REQUIRED := "Picture must be attached"
  const IMAGE_TOO_LARGE := "Max image size is roughly 5MB."
  const UNSUPPORTED_TYPE := "Only .jpg, .jpeg, .png, and .webp formats are supported."
  const CREATE_FAILED := "Error with creating listing"

  /** The raw values of the form; `ticket` is the file input's FileList. */
  datatype Draft = Draft(event: string, date: string, description: string, ticket: seq<File>)

  /** The three refinements on the ticket, in order. The size and type
      checks look at index 0 only and answer false for an empty list. */
  predicate Attached(files: seq<File>)
  {
    |files| > 0
  }

  predicate SizeAccepted(files: seq<File>)
  {
    if |files| > 0 then files[0].size <= MAX_FILE_SIZE else false
  }

  predicate TypeAccepted(files: seq<File>)
  {
    if |files| > 0 then files[0].mimeType in ACCEPTED_IMAGE_TYPES else false
  }

  /** The ticket's messages. An empty list fails all three refinements; a
      non-empty one fails the size check exactly above 5242880 bytes and the
      type check exactly outside the four accepted MIME types. */
  function TicketIssues(files: seq<File>): (issues: seq<string>)
    ensures files == [] ==> issues == [PICTURE_REQUIRED, IMAGE_TOO_LARGE, UNSUPPORTED_TYPE]
    ensures files != [] ==> PICTURE_REQUIRED !in issues
    ensures files != [] ==> (IMAGE_TOO_LARGE in issues <==> files[0].size > 5242880)
    ensures files != [] ==>
      (UNSUPPORTED_TYPE in issues <==> files[0].mimeType !in {"image/jpeg", "image/jpg", "image/png", "image/webp"})
    ensures issues == [] <==>
      files != [] && files[0].size <= 5242880 &&
      files[0].mimeType in {"image/jpeg", "image/jpg", "image/png", "image/webp"}
  {
    Issue(Attached(files), PICTURE_REQUIRED)
      + Issue(SizeAccepted(files), IMAGE_TOO_LARGE)
      + Issue(TypeAccepted(files), UNSUPPORTED_TYPE)
  }

  /** The drafts the form lets through, stated directly. */
  predicate Submittable(d: Draft)
  {
    d.event != "" && d.date != "" && d.description != "" &&
    |d.ticket| > 0 &&
    d.ticket[0].size <= MAX_FILE_SIZE &&
    d.ticket[0].mimeType in ACCEPTED_IMAGE_TYPES
  }

  /** The schema. Each string field is rejected exactly when it is empty,
      with its own message; the ticket is rejected exactly when its first
      file is missing, too large or of another type; and the draft passes
      exactly when it is Submittable. */
  function Validate(d: Draft): (errs: ErrorMap)
    ensures errs.Keys <= {"event", "date", "description", "ticket"}
    ensures "event" in errs <==> d.event == ""
    ensures "event" in errs ==> errs["event"] == [EVENT_REQUIRED]
    ensures "date" in errs <==> d.date == ""
    ensures "date" in errs ==> errs["date"] == [DATE_REQUIRED]
    ensures "description" in errs <==> d.description == ""
    ensures "description" in errs ==> errs["description"] == [DESCRIPTION_REQUIRED]
    ensures "ticket" in errs <==> !(|d.ticket| > 0 && SizeAccepted(d.ticket) && TypeAccepted(d.ticket))
    ensures "ticket" in errs ==> errs["ticket"] == TicketIssues(d.ticket)
    ensures errs == map[] <==> Submittable(d)
  {
    var errs := WithField(map[], "event", Issue(MinLength(d.event, 1), EVENT_REQUIRED));
    var errs := WithField(errs, "date", Issue(MinLength(d.date, 1), DATE_REQUIRED));
    var errs := WithField(errs, "description", Issue(MinLength(d.description, 1), DESCRIPTION_REQUIRED));
    var errs := WithField(errs, "ticket", TicketIssues(d.ticket));
    assert errs == map[] <==> !("event" in errs || "date" in errs || "description" in errs || "ticket" in errs);
    errs
  }

  /** A form left at its defaults fails the event rule. */
  lemma UntouchedEventRejected(d: Draft)
    requires d.event == DEFAULT_EVENT
    ensures "event" in Validate(d) && Validate(d)["event"] == [EVENT_REQUIRED]
    ensures !Submittable(d)
  {
  }

  /** An empty ticket list never passes, and reports all three messages. */
  lemma EmptyTicketRejected(d: Draft)
    requires d.ticket == []
    ensures "ticket" in Validate(d)
    ensures Validate(d)["ticket"] == [PICTURE_REQUIRED, IMAGE_TOO_LARGE, UNSUPPORTED_TYPE]
  {
  }

  /** The size limit is inclusive: 5242880 bytes pass, one more byte fails. */
  lemma SizeLimitInclusive(mimeType: string)
    requires mimeType in ACCEPTED_IMAGE_TYPES
    ensures TicketIssues([File(5242880, mimeType)]) == []
    ensures TicketIssues([File(5242881, mimeType)]) == [IMAGE_TOO_LARGE]
  {
  }

  /** Only index 0 of the ticket list is inspected: lists that agree on
      their first file get the same verdict, whatever follows. */
  lemma OnlyFirstFileInspected(d: Draft, a: seq<File>, b: seq<File>)
    requires |a| > 0 && |b| > 0 && a[0] == b[0]
    ensures Validate(d.(ticket := a)) == Validate(d.(ticket := b))
  {
  }

  /** What the post to the listing service settles to: a response with its
      `ok` flag, or an error thrown by the request itself. */
  datatype FetchResult = Response(ok: bool) | Thrown(message: string)

  /** The form's state as the submit handler sees it. `Submit` is the part
      of the handler before the request is awaited, `Settle` the part after
      it; between the two `loading` holds and the submit button is
      disabled. The handler neither resets the form nor navigates. */
  class Form {
    var draft: Draft
    var loading: bool
    var rootError: Option<string>

    constructor ()
      ensures draft == Draft(DEFAULT_EVENT, "", "", [])
      ensures !loading && rootError == None
    {
      draft := Draft(DEFAULT_EVENT, "", "", []);
      loading := false;
      rootError := None;
    }

    /** The submit button is enabled exactly while no request is pending. */
    predicate SubmitEnabled()
      reads this
    {
      !loading
    }

    /** The user edits the inputs. */
    method Input(d: Draft)
      modifies this
      ensures draft == d
      ensures loading == old(loading) && rootError == old(rootError)
    {
      draft := d;
    }

    /** Up to the await: the loading flag is raised and the button disabled. */
    method Submit()
      modifies this
      ensures loading && !SubmitEnabled()
      ensures draft == old(draft) && rootError == old(rootError)
    {
      loading := true;
    }

    /** After the await, through the catch and the finally: a response that
      is not ok becomes "Error with creating listing", a thrown error's
      message is copied verbatim, an ok response leaves the root error as
      it was; on every path the loading flag is lowered again. */
    method Settle(result: FetchResult)
      modifies this
      ensures !loading && SubmitEnabled()
      ensures draft == old(draft)
      ensures result == Response(true) ==> rootError == old(rootError)
      ensures result == Response(false) ==> rootError == Some(CREATE_FAILED)
      ensures result.Thrown? ==> rootError == Some(result.message)
    {
      match result {
        case Response(ok) =>
          if !ok {
            rootError := Some(CREATE_FAILED);
          }
        case Thrown(message) =>
          rootError := Some(message);
      }
      loading := false;
    }
  }

  /** A failed post followed by a successful one: the button is disabled
      only while a request is pending, and the draft is kept throughout. */
  method FailedThenRetried(d: Draft)
  {
    var form := new Form();
    form.Input(d);
    form.Submit();
    assert !form.SubmitEnabled();
    form.Settle(Response(false));
    assert form.SubmitEnabled() && form.rootError == Some(CREATE_FAILED) && form.draft == d;
    form.Submit();
    form.Settle(Response(true));
    assert form.SubmitEnabled() && form.draft == d;
  }
}
