/** The profile-update form: its schema over name, phone number and
    picture, and its submit handler, which only resets the form. */
module ProfileUpdateForm {
  import opened FormCore

  const INVALID_PHONE := "Invalid phone number format"

  /** The message of the schema library's `instanceof` check. */
  const NOT_A_FILE_LIST := "Input not instance of FileList"

  /** The picture input's value: a FileList, or some other value. */
  datatype Picture = FileList(files: seq<File>) | NotFileList

  /** `phoneNumber` is optional: None is an absent value. */
  datatype Draft = Draft(name: string, phoneNumber: Option<string>, profilePic: Picture)

  /** The inputs as they are when empty, which is what reset leaves. */
  const CLEARED := Draft("", Some(""), FileList([]))

  /** One atom of an anchored pattern without repetition or alternation:
      `\d` (an ASCII digit, as in JavaScript) or one literal character. */
  datatype Atom = Digit | Char(c: char)

  /** The phone pattern `^\d{3}-\d{3}-\d{4}$` with each `\d{n}` spelled out. */
  const PHONE_PATTERN: seq<Atom> :=
    [Digit, Digit, Digit, Char('-'), Digit, Digit, Digit, Char('-'), Digit, Digit, Digit, Digit]

  predicate IsDigit(c: char)
  {
    '0' <= c <= '9'
  }

  predicate AtomMatches(a: Atom, c: char)
  {
    match a
    case Digit => IsDigit(c)
    case Char(x) => c == x
  }

  /** Whether the pattern, anchored at both ends, matches the whole string. */
  predicate MatchesWhole(p: seq<Atom>, s: string)
    decreases p
  {
    if p == [] then s == []
    else s != [] && AtomMatches(p[0], s[0]) && MatchesWhole(p[1..], s[1..])
  }

  /** An anchored match is a position-by-position match of equal length. */
  lemma {:induction false} MatchesWholeAtEachPosition(p: seq<Atom>, s: string)
    ensures MatchesWhole(p, s) <==>
      |s| == |p| && forall i :: 0 <= i < |s| ==> AtomMatches(p[i], s[i])
    decreases p
  {
    if p != [] && s != [] {
      MatchesWholeAtEachPosition(p[1..], s[1..]);
      if |s| == |p| && forall i :: 0 <= i < |s| ==> AtomMatches(p[i], s[i]) {
        assert forall i :: 0 <= i < |s[1..]| ==> AtomMatches(p[1..][i], s[1..][i]) by {
          forall i | 0 <= i < |s[1..]|
            ensures AtomMatches(p[1..][i], s[1..][i])
          {
            assert AtomMatches(p[i + 1], s[i + 1]);
          }
        }
      }
      if MatchesWhole(p, s) {
        forall i | 0 <= i < |s|
          ensures AtomMatches(p[i], s[i])
        {
          if i > 0 {
            assert AtomMatches(p[1..][i - 1], s[1..][i - 1]);
          }
        }
      }
    }
  }

  /** `NNN-NNN-NNNN`, stated directly: twelve characters, '-' at indexes 3
      and 7 and ASCII digits everywhere else. */
  predicate PhoneShaped(s: string)
  {
    |s| == 12 && s[3] == '-' && s[7] == '-' &&
    forall i :: 0 <= i < 12 && i != 3 && i != 7 ==> IsDigit(s[i])
  }

  /** A position-by-position match against the phone pattern is the same
      as being phone-shaped. */
  lemma PositionwisePhoneShaped(s: string)
    ensures (|s| == |PHONE_PATTERN| && forall i :: 0 <= i < |s| ==> AtomMatches(PHONE_PATTERN[i], s[i]))
      <==> PhoneShaped(s)
  {
    if PhoneShaped(s) {
      forall i | 0 <= i < |s|
        ensures AtomMatches(PHONE_PATTERN[i], s[i])
      {
        if i != 3 && i != 7 {
          assert PHONE_PATTERN[i] == Digit;
        }
      }
    }
    if |s| == |PHONE_PATTERN| && forall i :: 0 <= i < |s| ==> AtomMatches(PHONE_PATTERN[i], s[i]) {
      assert AtomMatches(PHONE_PATTERN[3], s[3]);
      assert AtomMatches(PHONE_PATTERN[7], s[7]);
      forall i | 0 <= i < 12 && i != 3 && i != 7
        ensures IsDigit(s[i])
      {
        assert PHONE_PATTERN[i] == Digit;
        assert AtomMatches(PHONE_PATTERN[i], s[i]);
      }
    }
  }

  /** The pattern accepts exactly the phone-shaped strings. */
  lemma PhonePatternMeaning(s: string)
    ensures MatchesWhole(PHONE_PATTERN, s) <==> PhoneShaped(s)
  {
    MatchesWholeAtEachPosition(PHONE_PATTERN, s);
    PositionwisePhoneShaped(s);
  }

  /** The phone refinement: an absent or empty value passes, any other
      value must match the pattern. */
  function PhoneIssues(phone: Option<string>): (issues: seq<string>)
    ensures issues == [] <==> phone == None || phone == Some("") || PhoneShaped(phone.value)
    ensures issues != [] ==> issues == [INVALID_PHONE]
  {
    match phone
    case None => []
    case Some(v) =>
      PhonePatternMeaning(v);
      Issue(v == "" || MatchesWhole(PHONE_PATTERN, v), INVALID_PHONE)
  }

  /** The picture need only be a FileList: any count, size or type. */
  function PictureIssues(pic: Picture): seq<string>
  {
    Issue(pic.FileList?, NOT_A_FILE_LIST)
  }

  /** The drafts the form lets through, stated directly. */
  predicate Submittable(d: Draft)
  {
    (d.phoneNumber == None || d.phoneNumber == Some("") || PhoneShaped(d.phoneNumber.value)) &&
    d.profilePic.FileList?
  }

  /** The schema. The name is never rejected; the phone number is rejected
      exactly when it is present, non-empty and not phone-shaped; the
      picture exactly when it is not a FileList. */
  function Validate(d: Draft): (errs: ErrorMap)
    ensures errs.Keys <= {"phoneNumber", "profilePic"}
    ensures "name" !in errs
    ensures "phoneNumber" in errs <==>
      d.phoneNumber.Some? && d.phoneNumber.value != "" && !PhoneShaped(d.phoneNumber.value)
    ensures "phoneNumber" in errs ==> errs["phoneNumber"] == [INVALID_PHONE]
    ensures "profilePic" in errs <==> d.profilePic.NotFileList?
    ensures errs == map[] <==> Submittable(d)
  {
    var errs := WithField(map[], "phoneNumber", PhoneIssues(d.phoneNumber));
    var errs := WithField(errs, "profilePic", PictureIssues(d.profilePic));
    assert errs == map[] <==> !("phoneNumber" in errs || "profilePic" in errs);
    errs
  }

  /** Any FileList is accepted for the picture, the empty one included,
      and the name never matters. */
  lemma AnyFileListAccepted(d: Draft, name: string, files: seq<File>)
    ensures Validate(d.(name := name, profilePic := FileList(files))) == Validate(d.(profilePic := FileList([])))
  {
  }

  /** A well-formed number passes; one without dashes and one with a
      letter in it get the phone message. */
  lemma WellFormedPhoneAccepted()
    ensures PhoneIssues(Some("301-405-1000")) == []
  {
    assert PhoneShaped("301-405-1000");
  }

  lemma PhoneWithoutDashesRejected()
    ensures PhoneIssues(Some("3014051000")) == [INVALID_PHONE]
  {
  }

  lemma PhoneWithLetterRejected()
    ensures PhoneIssues(Some("301-405-100a")) == [INVALID_PHONE]
  {
    assert !IsDigit("301-405-100a"[11]);
  }

  /** The submit handler: it makes no call and only resets the form, so its
      result does not depend on what was submitted and leaves inputs that
      pass every rule. */
  function OnSubmit(d: Draft): (reset: Draft)
    ensures reset.name == "" && reset.phoneNumber == Some("") && reset.profilePic == FileList([])
    ensures Validate(reset) == map[]
  {
    CLEARED
  }

  /** What the handler leaves is independent of what was submitted. */
  lemma OnSubmitIgnoresDraft(a: Draft, b: Draft)
    ensures OnSubmit(a) == OnSubmit(b)
  {
  }
}
