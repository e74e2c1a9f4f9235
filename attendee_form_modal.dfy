/**
 * The attendee form modal (component `attendeeFormModal`): adds an attendee
 * to an event, or edits one, after checking that both fields are filled in
 * and that the email has the shape `^[^\s@]+@[^\s@]+\.[^\s@]+$`.
 *
 * The backend's `addAttendee`/`updateAttendee` answer is a parameter; the
 * call the component makes is returned, and `close(...)` is recorded.
 */
module AttendeeFormModal {
  import opened Common
  import opened Records

  const EditMode: string := "edit"
  const OperationFailed: string := "Operation failed"

  /** `modalTitle`. */
  function ModalTitle(mode: string): (title: string)
    ensures title == "Edit Attendee" <==> mode == EditMode
    ensures title == "Add Attendee" <==> mode != EditMode
  {
    if mode == EditMode then "Edit Attendee" else "Add Attendee"
  }

  /** `submitLabel`. */
  function SubmitLabel(mode: string): (text: string)
    ensures text == "Save Changes" <==> mode == EditMode
    ensures text == "Add Attendee" <==> mode != EditMode
  {
    if mode == EditMode then "Save Changes" else "Add Attendee"
  }

  /** Title and button agree: the modal never offers to save changes under
      an "Add Attendee" title, nor the reverse. */
  lemma TitleMatchesSubmitLabel(mode: string)
    ensures ModalTitle(mode) == "Edit Attendee" <==> SubmitLabel(mode) == "Save Changes"
    ensures ModalTitle(mode) == SubmitLabel(mode) <==> mode != EditMode
  {
  }

  // ---------------------------------------------------------------------
  // The email pattern

  /** The character class `[^\s@]`. */
  predicate PlainChar(c: char) {
    !IsWhitespace(c) && c != '@'
  }

  /** `s[lo..hi]` matches `[^\s@]+`. */
  predicate PlainRun(s: string, lo: int, hi: int)
    requires 0 <= lo <= hi <= |s|
  {
    lo < hi && forall k | lo <= k < hi :: PlainChar(s[k])
  }

  /** `/^[^\s@]+@[^\s@]+\.[^\s@]+$/.test(s)`: some split of `s` at an '@' and
      a later '.' leaves three non-empty runs of `[^\s@]`. */
  predicate EmailRegexTest(s: string) {
    exists i, j | 0 <= i < j < |s| ::
      s[i] == '@' && s[j] == '.'
      && PlainRun(s, 0, i) && PlainRun(s, i + 1, j) && PlainRun(s, j + 1, |s|)
  }

  /** The same language described by its shape: no whitespace, exactly one
      '@', a non-empty local part, and a '.' in the domain with text on both
      sides of it. */
  predicate EmailShape(s: string) {
    && (forall k | 0 <= k < |s| :: !IsWhitespace(s[k]))
    && exists i | 0 < i < |s| ::
         && s[i] == '@'
         && (forall k | 0 <= k < |s| && k != i :: s[k] != '@')
         && exists j | i + 1 < j < |s| - 1 :: s[j] == '.'
  }

  /** The regular expression accepts exactly the emails of that shape. */
  lemma EmailRegexIffShape(s: string)
    ensures EmailRegexTest(s) <==> EmailShape(s)
  {
    if EmailRegexTest(s) {
      var i, j :| 0 <= i < j < |s| && s[i] == '@' && s[j] == '.'
        && PlainRun(s, 0, i) && PlainRun(s, i + 1, j) && PlainRun(s, j + 1, |s|);
      forall k | 0 <= k < |s|
        ensures !IsWhitespace(s[k])
        ensures k != i ==> s[k] != '@'
      {
        if k < i {
          assert PlainChar(s[k]);
        } else if i < k < j {
          assert PlainChar(s[k]);
        } else if j < k {
          assert PlainChar(s[k]);
        }
      }
      assert s[j] == '.' && i + 1 < j < |s| - 1;
    }
    if EmailShape(s) {
      var i :| 0 < i < |s| && s[i] == '@'
        && (forall k | 0 <= k < |s| && k != i :: s[k] != '@')
        && exists j | i + 1 < j < |s| - 1 :: s[j] == '.';
      var j :| i + 1 < j < |s| - 1 && s[j] == '.';
      assert PlainRun(s, 0, i);
      assert PlainRun(s, i + 1, j);
      assert PlainRun(s, j + 1, |s|);
    }
  }

  /** Inputs the component accepts before calling the backend. */
  predicate ValidInput(name: string, email: string) {
    name != "" && email != "" && EmailRegexTest(email)
  }

  /** The address the test data uses passes. */
  lemma EmailAccepted()
    ensures EmailRegexTest("alice@example.com")
  {
    var s := "alice@example.com";
    assert s[5] == '@' && s[13] == '.';
    assert PlainRun(s, 0, 5) && PlainRun(s, 6, 13) && PlainRun(s, 14, |s|);
  }

  /** A domain without a dot fails. */
  lemma EmailWithoutDotRejected()
    ensures !EmailRegexTest("alice@example")
  {
    var t := "alice@example";
    assert forall k | 0 <= k < |t| :: t[k] != '.';
  }

  /** An address with a space fails. */
  lemma EmailWithSpaceRejected()
    ensures !EmailRegexTest("al ice@example.com")
  {
    var u := "al ice@example.com";
    assert IsWhitespace(u[2]);
    EmailRegexIffShape(u);
  }

  // ---------------------------------------------------------------------
  // The component

  /** The backend call the modal makes. */
  datatype AttendeeCall =
    | UpdateAttendee(attendeeId: string, name: string, email: string)
    | AddAttendee(eventId: Option<string>, name: string, email: string)

  /** What the modal was closed with: nothing (cancel), the saved record, or
      an `{error}` object. */
  datatype CloseResult = Dismissed | Saved(record: Attendee) | Error(error: string)

  class AttendeeFormModal {
    var mode: string
    var eventId: Option<string>
    var attendee: Option<Attendee>
    var name: string
    var email: string
    var initialized: bool
    /** `None` while open; what `close` was called with once closed. */
    var closed: Option<CloseResult>

    constructor (mode: string, eventId: Option<string>, attendee: Option<Attendee>)
      ensures this.mode == mode && this.eventId == eventId && this.attendee == attendee
      ensures name == "" && email == "" && !initialized && closed.None?
    {
      this.mode := mode;
      this.eventId := eventId;
      this.attendee := attendee;
      name := "";
      email := "";
      initialized := false;
      closed := None;
    }

    /** In edit mode, copies the attendee's name and email into the form,
        once. */
    method ConnectedCallback()
      modifies this`name, this`email, this`initialized
      ensures mode == EditMode && attendee.Some? && !old(initialized) ==>
        name == attendee.value.name && email == attendee.value.email && initialized
      ensures !(mode == EditMode && attendee.Some? && !old(initialized)) ==>
        name == old(name) && email == old(email) && initialized == old(initialized)
    {
      if mode == EditMode && attendee.Some? && !initialized {
        name := attendee.value.name;
        email := attendee.value.email;
        initialized := true;
      }
    }

    method HandleNameChange(value: string)
      modifies this`name
      ensures name == value
    {
      name := value;
    }

    method HandleEmailChange(value: string)
      modifies this`email
      ensures email == value
    {
      email := value;
    }

    method HandleCancel()
      modifies this`closed
      ensures closed == Some(Dismissed)
    {
      closed := Some(Dismissed);
    }

    /** `handleSubmit`. `reply` is the backend's answer to the call made, if
        any. Without a valid name and email nothing is called and the modal
        stays open. In edit mode without an attendee, reading its `Id` throws
        and the modal closes with the fallback error. */
    method HandleSubmit(reply: Reply<Attendee>) returns (call: Option<AttendeeCall>)
      modifies this`closed
      ensures !ValidInput(name, email) ==> call.None? && closed == old(closed)
      ensures ValidInput(name, email) && mode == EditMode && attendee.None? ==>
        call.None? && closed == Some(Error(OperationFailed))
      ensures ValidInput(name, email) && mode == EditMode && attendee.Some? ==>
        call == Some(UpdateAttendee(attendee.value.id, name, email))
      ensures ValidInput(name, email) && mode != EditMode ==>
        call == Some(AddAttendee(eventId, name, email))
      ensures call.Some? && reply.Resolved? ==> closed == Some(Saved(reply.value))
      ensures call.Some? && reply.Rejected? ==>
        closed == Some(Error(ErrorText(reply.bodyMessage, OperationFailed)))
    {
      if name == "" || email == "" {
        return None;
      }
      if !EmailRegexTest(email) {
        return None;
      }
      if mode == EditMode {
        if attendee.None? {
          closed := Some(Error(OperationFailed));
          return None;
        }
        call := Some(UpdateAttendee(attendee.value.id, name, email));
      } else {
        call := Some(AddAttendee(eventId, name, email));
      }
      match reply {
        case Resolved(record) => closed := Some(Saved(record));
        case Rejected(bodyMessage) => closed := Some(Error(ErrorText(bodyMessage, OperationFailed)));
      }
    }
  }
}
