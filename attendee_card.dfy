/**
 * One attendee in the event detail list (component `attendeeCard`): the
 * check-in badge and button, the check-in time, and the `togglecheckin`,
 * `edit` and `delete` events it dispatches.
 *
 * The card's `attendee` may be absent; the getters read it with optional
 * chaining, so an absent attendee shows as not checked in.
 */
module AttendeeCard {
  import opened Common
  import opened Records

  /** `attendee?.Checked_In__c`, read as a condition. */
  predicate CheckedIn(attendee: Option<Attendee>) {
    attendee.Some? && attendee.value.checkedIn
  }

  function CheckInStatusLabel(attendee: Option<Attendee>): (text: string)
    ensures text == "Checked In" <==> CheckedIn(attendee)
    ensures text == "Not Checked In" <==> !CheckedIn(attendee)
  {
    if CheckedIn(attendee) then "Checked In" else "Not Checked In"
  }

  function CheckInBadgeClass(attendee: Option<Attendee>): (cls: string)
    ensures cls == "checked-in-badge" <==> CheckedIn(attendee)
    ensures cls == "not-checked-in-badge" <==> !CheckedIn(attendee)
  {
    if CheckedIn(attendee) then "checked-in-badge" else "not-checked-in-badge"
  }

  function CheckInButtonVariant(attendee: Option<Attendee>): (variant: string)
    ensures variant == "success" <==> CheckedIn(attendee)
    ensures variant == "neutral" <==> !CheckedIn(attendee)
  {
    if CheckedIn(attendee) then "success" else "neutral"
  }

  function CheckInButtonLabel(attendee: Option<Attendee>): (text: string)
    ensures text == "Checked In" <==> CheckedIn(attendee)
    ensures text == "Check In" <==> !CheckedIn(attendee)
  {
    if CheckedIn(attendee) then "Checked In" else "Check In"
  }

  function CheckInIcon(attendee: Option<Attendee>): (icon: string)
    ensures icon == "utility:check" <==> CheckedIn(attendee)
    ensures icon == "utility:toggle_off" <==> !CheckedIn(attendee)
  {
    if CheckedIn(attendee) then "utility:check" else "utility:toggle_off"
  }

  /** Everything the card shows about check-in follows the one flag: two
      attendees with the same flag look alike, and the badge, button and
      icon never disagree with the status label. */
  lemma CheckInViewFollowsFlag(a: Option<Attendee>, b: Option<Attendee>)
    requires CheckedIn(a) == CheckedIn(b)
    ensures CheckInStatusLabel(a) == CheckInStatusLabel(b)
    ensures CheckInBadgeClass(a) == CheckInBadgeClass(b)
    ensures CheckInButtonVariant(a) == CheckInButtonVariant(b)
    ensures CheckInButtonLabel(a) == CheckInButtonLabel(b)
    ensures CheckInIcon(a) == CheckInIcon(b)
    ensures CheckInStatusLabel(a) == "Checked In" <==> CheckInBadgeClass(a) == "checked-in-badge"
    ensures CheckInStatusLabel(a) == "Checked In" <==> CheckInButtonVariant(a) == "success"
    ensures CheckInStatusLabel(a) == "Checked In" <==> CheckInButtonLabel(a) == "Checked In"
    ensures CheckInStatusLabel(a) == "Checked In" <==> CheckInIcon(a) == "utility:check"
  {
  }

  /** `formattedCheckInTime`: empty when there is no check-in time (absent
      or empty); otherwise the host's `toLocaleString`, given here as
      `format`. */
  function FormattedCheckInTime(attendee: Option<Attendee>, format: string -> string): (text: string)
    ensures attendee.None? || attendee.value.checkInTime.None? || attendee.value.checkInTime.value == "" ==>
      text == ""
    ensures attendee.Some? && attendee.value.checkInTime.Some? && attendee.value.checkInTime.value != "" ==>
      text == format(attendee.value.checkInTime.value)
  {
    match attendee
    case Some(a) =>
      (match a.checkInTime
       case Some(t) => if t != "" then format(t) else ""
       case None => "")
    case None => ""
  }

  /** The events the card dispatches. */
  datatype CardEvent =
    | ToggleCheckIn(attendeeId: string)
    | Edit(attendee: Option<Attendee>)
    | Delete(attendeeId: string)

  /** `handleToggleCheckIn`: the event carries the attendee's Id. Reading
      the Id of an absent attendee throws, and nothing is dispatched. */
  function HandleToggleCheckIn(attendee: Option<Attendee>): (dispatched: Option<CardEvent>)
    ensures dispatched.Some? <==> attendee.Some?
    ensures attendee.Some? ==> dispatched.value == ToggleCheckIn(attendee.value.id)
  {
    if attendee.Some? then Some(ToggleCheckIn(attendee.value.id)) else None
  }

  /** `handleEdit`: the event carries the whole record, absent or not. */
  function HandleEdit(attendee: Option<Attendee>): (dispatched: CardEvent)
    ensures dispatched.Edit? && dispatched.attendee == attendee
  {
    Edit(attendee)
  }

  /** `handleDelete`: the event carries the attendee's Id. Reading the Id of
      an absent attendee throws, and nothing is dispatched. */
  function HandleDelete(attendee: Option<Attendee>): (dispatched: Option<CardEvent>)
    ensures dispatched.Some? <==> attendee.Some?
    ensures attendee.Some? ==> dispatched.value == Delete(attendee.value.id)
  {
    if attendee.Some? then Some(Delete(attendee.value.id)) else None
  }

  /** The toggle and delete events of one card name the same attendee, the
      one the edit event carries. */
  lemma CardEventsAgree(attendee: Attendee)
    ensures HandleToggleCheckIn(Some(attendee)).value.attendeeId
         == HandleDelete(Some(attendee)).value.attendeeId
         == HandleEdit(Some(attendee)).attendee.value.id
  {
  }
}
