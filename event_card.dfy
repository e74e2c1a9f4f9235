/**
 * One event in the list (component `eventCard`): its attendee count badge,
 * its status badge and the `select` event it dispatches when clicked.
 *
 * The card's `event` may be absent; the getters read it with optional
 * chaining, so an absent event shows the defaults.
 */
module EventCard {
  import opened Common
  import opened Records

  const DefaultStatus: string := "Active"
  const BadgePrefix: string := "status-badge status-"

  /** `event?.Attendees__r?.length || 0`. */
  function AttendeeCount(event: Option<EventRecord>): (count: nat)
    ensures event.None? || event.value.attendees.None? ==> count == 0
    ensures event.Some? && event.value.attendees.Some? ==> count == |event.value.attendees.value|
  {
    if event.Some? && event.value.attendees.Some? then |event.value.attendees.value| else 0
  }

  /** `attendeeCountLabel`: the count, then " Attendee" or " Attendees". */
  function AttendeeCountLabel(event: Option<EventRecord>): string {
    var count := AttendeeCount(event);
    NatToString(count) + (if count == 1 then " Attendee" else " Attendees")
  }

  /** The label is singular exactly for one attendee; every other count,
      zero included, is the decimal count followed by " Attendees". */
  lemma AttendeeCountLabelSpec(event: Option<EventRecord>)
    ensures AttendeeCountLabel(event) == "1 Attendee" <==> AttendeeCount(event) == 1
    ensures AttendeeCount(event) != 1 ==>
      AttendeeCountLabel(event) == NatToString(AttendeeCount(event)) + " Attendees"
  {
    var count := AttendeeCount(event);
    assert NatToString(1) == "1";
    if count != 1 {
      var text := AttendeeCountLabel(event);
      assert text == NatToString(count) + " Attendees";
      assert |text| >= 11 > |"1 Attendee"|;
    }
  }

  /** The badges the card tests expect for two and for one attendee. */
  lemma AttendeeCountLabelExamples(twoAttending: EventRecord, oneAttending: EventRecord)
    requires twoAttending.attendees == Some(["a01", "a02"])
    requires oneAttending.attendees == Some(["a01"])
    ensures AttendeeCountLabel(Some(twoAttending)) == "2 Attendees"
    ensures AttendeeCountLabel(Some(oneAttending)) == "1 Attendee"
    ensures AttendeeCountLabel(None) == "0 Attendees"
  {
    assert NatToString(2) == "2";
    assert NatToString(1) == "1";
    assert NatToString(0) == "0";
  }

  /** `statusLabel`: `Status__c`, or "Active" when it is absent or empty. */
  function StatusLabel(event: Option<EventRecord>): (text: string)
    ensures text != ""
    ensures event.Some? && event.value.status.Some? && event.value.status.value != "" ==>
      text == event.value.status.value
    ensures !(event.Some? && event.value.status.Some? && event.value.status.value != "") ==>
      text == DefaultStatus
  {
    match event
    case Some(e) =>
      (match e.status
       case Some(s) => if s != "" then s else DefaultStatus
       case None => DefaultStatus)
    case None => DefaultStatus
  }

  /** `statusBadgeClass`: the lower-cased status (or "active") after the
      badge prefix. */
  function StatusBadgeClass(event: Option<EventRecord>): string {
    var status := if event.Some? && event.value.status.Some? && event.value.status.value != ""
                  then event.value.status.value else DefaultStatus;
    BadgePrefix + Lower(status)
  }

  /** The badge class is the prefix followed by the lower-cased status
      label; it has no upper-case letter, and two statuses that differ only
      in letter case get the same class. */
  lemma StatusBadgeClassSpec(event: Option<EventRecord>, other: Option<EventRecord>)
    ensures StatusBadgeClass(event) == BadgePrefix + Lower(StatusLabel(event))
    ensures forall k :: |BadgePrefix| <= k < |StatusBadgeClass(event)| ==>
      !('A' <= StatusBadgeClass(event)[k] <= 'Z')
    ensures Lower(StatusLabel(event)) == Lower(StatusLabel(other)) ==>
      StatusBadgeClass(event) == StatusBadgeClass(other)
  {
    var c := StatusBadgeClass(event);
    var l := Lower(StatusLabel(event));
    forall k | |BadgePrefix| <= k < |c|
      ensures !('A' <= c[k] <= 'Z')
    {
      assert c[k] == l[k - |BadgePrefix|];
    }
  }

  /** An absent status reads "Active" and gets the class
      "status-badge status-active". */
  lemma DefaultStatusBadge(event: Option<EventRecord>)
    requires event.None? || event.value.status.None?
    ensures StatusLabel(event) == "Active"
    ensures StatusBadgeClass(event) == "status-badge status-active"
  {
    var l := Lower(DefaultStatus);
    assert forall k | 0 <= k < |l| :: l[k] == "active"[k];
    assert l == "active";
  }

  /** `handleClick`: the `select` event carries the event's Id. Reading the
      Id of an absent event throws, and nothing is dispatched. */
  function SelectDetail(event: Option<EventRecord>): (detail: Option<string>)
    ensures detail.Some? <==> event.Some?
    ensures event.Some? ==> detail.value == event.value.id
  {
    if event.Some? then Some(event.value.id) else None
  }
}
