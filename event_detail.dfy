/**
 * The event detail page (component `eventDetail`): the attendee list of one
 * event with a case-insensitive search, total and checked-in counters, a
 * QR toggle, and a check-in mode that checks an attendee in by QR code.
 *
 * The backend's answer to `checkInByQRCode` is a parameter; the call the
 * component makes is returned, and the toasts it dispatches are recorded.
 */
module EventDetail {
  import opened Common
  import opened Records

  // ---------------------------------------------------------------------
  // Search

  /** An attendee matches a lower-cased term when its lower-cased name or
      email contains the term. */
  predicate Matches(a: Attendee, term: string) {
    Contains(Lower(a.name), term) || Contains(Lower(a.email), term)
  }

  /** `attendees.filter(...)`: the matching attendees, in list order. */
  function FilterMatching(attendees: seq<Attendee>, term: string): seq<Attendee>
  {
    if attendees == [] then []
    else (if Matches(attendees[0], term) then [attendees[0]] else [])
         + FilterMatching(attendees[1..], term)
  }

  /** `filteredAttendees`: the whole list for an empty search term, otherwise
      the attendees matching the lower-cased term. */
  function FilteredAttendees(attendees: seq<Attendee>, searchTerm: string): seq<Attendee> {
    if searchTerm == "" then attendees else FilterMatching(attendees, Lower(searchTerm))
  }

  /** Filtering keeps exactly the matching attendees and never adds any. */
  lemma {:induction false} FilterMembership(attendees: seq<Attendee>, term: string)
    ensures forall a :: a in FilterMatching(attendees, term) <==> a in attendees && Matches(a, term)
    ensures |FilterMatching(attendees, term)| <= |attendees|
  {
    if attendees != [] {
      FilterMembership(attendees[1..], term);
      assert attendees == [attendees[0]] + attendees[1..];
    }
  }

  /** Filtering a concatenation filters each part: the order of the list is
      kept. */
  lemma {:induction false} FilterConcat(xs: seq<Attendee>, ys: seq<Attendee>, term: string)
    ensures FilterMatching(xs + ys, term) == FilterMatching(xs, term) + FilterMatching(ys, term)
  {
    if xs == [] {
      assert xs + ys == ys;
    } else {
      assert (xs + ys)[1..] == xs[1..] + ys;
      FilterConcat(xs[1..], ys, term);
    }
  }

  /** What `filteredAttendees` promises: with no term the list is unchanged;
      with a term, an attendee is shown exactly when it is listed and its
      lower-cased name or email contains the lower-cased term. */
  lemma FilteredAttendeesSpec(attendees: seq<Attendee>, searchTerm: string)
    ensures searchTerm == "" ==> FilteredAttendees(attendees, searchTerm) == attendees
    ensures searchTerm != "" ==> forall a :: a in FilteredAttendees(attendees, searchTerm) <==>
      a in attendees
      && (Contains(Lower(a.name), Lower(searchTerm)) || Contains(Lower(a.email), Lower(searchTerm)))
    ensures |FilteredAttendees(attendees, searchTerm)| <= |attendees|
  {
    FilterMembership(attendees, Lower(searchTerm));
  }

  /** `noSearchResults`: a term is entered and no attendee matches it. */
  function NoSearchResults(attendees: seq<Attendee>, searchTerm: string): (r: bool)
    ensures r <==> searchTerm != "" && forall a :: a in attendees ==> !Matches(a, Lower(searchTerm))
  {
    FilterMembership(attendees, Lower(searchTerm));
    var shown := FilterMatching(attendees, Lower(searchTerm));
    assert |shown| > 0 ==> shown[0] in shown;
    searchTerm != "" && |FilteredAttendees(attendees, searchTerm)| == 0
  }

  // ---------------------------------------------------------------------
  // Counters

  /** The number of checked-in attendees (`filter(a => a.Checked_In__c).length`). */
  function CountCheckedIn(attendees: seq<Attendee>): nat
  {
    if attendees == [] then 0
    else (if attendees[0].checkedIn then 1 else 0) + CountCheckedIn(attendees[1..])
  }

  /** The checked-in count never exceeds the list; it is the whole list
      exactly when everyone is checked in, and zero exactly when nobody is. */
  lemma {:induction false} CountCheckedInBounds(attendees: seq<Attendee>)
    ensures CountCheckedIn(attendees) <= |attendees|
    ensures CountCheckedIn(attendees) == |attendees| <==>
      forall k :: 0 <= k < |attendees| ==> attendees[k].checkedIn
    ensures CountCheckedIn(attendees) == 0 <==>
      forall k :: 0 <= k < |attendees| ==> !attendees[k].checkedIn
  {
    if attendees != [] {
      var rest := attendees[1..];
      CountCheckedInBounds(rest);
      assert forall k :: 1 <= k < |attendees| ==> attendees[k] == rest[k - 1];
      assert (forall k :: 0 <= k < |rest| ==> rest[k].checkedIn) ==>
        forall k :: 1 <= k < |attendees| ==> attendees[k].checkedIn;
      assert (forall k :: 0 <= k < |rest| ==> !rest[k].checkedIn) ==>
        forall k :: 1 <= k < |attendees| ==> !attendees[k].checkedIn;
    }
  }

  const TotalPrefix: string := "Total: "
  const CheckedInPrefix: string := "Checked In: "

  /** `totalCountLabel`. */
  function TotalCountLabel(attendees: seq<Attendee>): string {
    TotalPrefix + NatToString(|attendees|)
  }

  /** `checkedInCountLabel`. */
  function CheckedInCountLabel(attendees: seq<Attendee>): string {
    CheckedInPrefix + NatToString(CountCheckedIn(attendees))
  }

  /** Each label is its fixed prefix followed by the decimal count, which
      reads back as the number of attendees and of checked-in attendees. */
  lemma CountLabelsReadBack(attendees: seq<Attendee>)
    ensures var t := TotalCountLabel(attendees);
      |t| > |TotalPrefix| && t[..|TotalPrefix|] == TotalPrefix
      && (forall k | |TotalPrefix| <= k < |t| :: IsDigit(t[k]))
      && ParseNat(t[|TotalPrefix|..]) == |attendees|
    ensures var c := CheckedInCountLabel(attendees);
      |c| > |CheckedInPrefix| && c[..|CheckedInPrefix|] == CheckedInPrefix
      && (forall k | |CheckedInPrefix| <= k < |c| :: IsDigit(c[k]))
      && ParseNat(c[|CheckedInPrefix|..]) == CountCheckedIn(attendees)
      && CountCheckedIn(attendees) <= |attendees|
  {
    var t := TotalCountLabel(attendees);
    assert t[|TotalPrefix|..] == NatToString(|attendees|);
    ParseNatToString(|attendees|);
    var c := CheckedInCountLabel(attendees);
    assert c[|CheckedInPrefix|..] == NatToString(CountCheckedIn(attendees));
    ParseNatToString(CountCheckedIn(attendees));
    CountCheckedInBounds(attendees);
  }

  // ---------------------------------------------------------------------
  // Labels of the toggles

  function CheckInModeLabel(checkInMode: bool): (text: string)
    ensures text == "Close Scanner" <==> checkInMode
    ensures text == "QR Scanner" <==> !checkInMode
  {
    if checkInMode then "Close Scanner" else "QR Scanner"
  }

  function CheckInModeVariant(checkInMode: bool): (variant: string)
    ensures variant == "brand" <==> checkInMode
    ensures variant == "neutral" <==> !checkInMode
  {
    if checkInMode then "brand" else "neutral"
  }

  function QrToggleIcon(showQR: bool): (icon: string)
    ensures icon == "utility:hide" <==> showQR
    ensures icon == "utility:preview" <==> !showQR
  {
    if showQR then "utility:hide" else "utility:preview"
  }

  /** `hasAttendees`: whether the attendee list is non-empty. */
  predicate HasAttendees(attendees: seq<Attendee>) {
    |attendees| > 0
  }

  /** The page has attendees exactly when clearing the search shows some,
      and without attendees no search term shows any. */
  lemma HasAttendeesAgreesWithFilter(attendees: seq<Attendee>, searchTerm: string)
    ensures HasAttendees(attendees) <==> FilteredAttendees(attendees, "") != []
    ensures !HasAttendees(attendees) ==> FilteredAttendees(attendees, searchTerm) == []
  {
    FilteredAttendeesSpec(attendees, searchTerm);
  }

  // ---------------------------------------------------------------------
  // The page's test data

  const Alice: Attendee :=
    Attendee("a01000000000001", "Alice Johnson", "alice@example.com", "EV001-ALICE-001", false, None)
  const Bob: Attendee :=
    Attendee("a01000000000002", "Bob Smith", "bob@example.com", "EV001-BOB-002", true,
             Some("2024-03-15T09:30:00.000Z"))

  /** "alice" occurs in Alice's lower-cased name. */
  lemma AliceMatches()
    ensures Matches(Alice, "alice")
  {
    var aliceName := Lower(Alice.name);
    assert aliceName[..5] == "alice";
  }

  /** A string in which no two neighbours spell the first two characters
      of `t` does not contain `t`. */
  lemma NoOccurrenceByPair(s: string, t: string)
    requires |t| >= 2
    requires forall i | 0 <= i < |s| - 1 :: s[i] != t[0] || s[i + 1] != t[1]
    ensures !Contains(s, t)
  {
    forall i
      ensures !OccursAt(s, t, i)
    {
      if 0 <= i && i + |t| <= |s| {
        assert s[i..i + |t|][0] == s[i] && s[i..i + |t|][1] == s[i + 1];
      }
    }
    ContainsIffOccurs(s, t);
  }

  /** "alice" does not occur in Bob's lower-cased name. */
  lemma BobNameMisses(name: string)
    requires name == Bob.name
    ensures !Contains(Lower(name), "alice")
  {
    assert forall k | 0 <= k < |name| :: name[k] != 'a' && name[k] != 'A';
    var l := Lower(name);
    assert forall k | 0 <= k < |l| :: l[k] != 'a';
    NoOccurrenceByPair(l, "alice");
  }

  /** "alice" does not occur in Bob's lower-cased email. */
  lemma BobEmailMisses(email: string)
    requires email == Bob.email
    ensures !Contains(Lower(email), "alice")
  {
    assert forall k | 0 <= k < |email| - 1 :: email[k] != 'a' || email[k + 1] != 'l';
    assert forall k | 0 <= k < |email| :: !('A' <= email[k] <= 'Z');
    var l := Lower(email);
    assert forall k | 0 <= k < |l| :: l[k] == email[k];
    NoOccurrenceByPair(l, "alice");
  }

  /** "alice" occurs neither in Bob's name nor in his email. */
  lemma BobDoesNotMatch()
    ensures !Matches(Bob, "alice")
  {
    BobNameMisses(Bob.name);
    BobEmailMisses(Bob.email);
  }

  /** The search term is already lower case. */
  lemma LowerAlice()
    ensures Lower("alice") == "alice"
  {
    var l := Lower("alice");
    assert forall k | 0 <= k < 5 :: l[k] == "alice"[k];
  }

  /** "alice" finds Alice but not Bob. */
  lemma SearchAliceFindsOne()
    ensures FilteredAttendees([Alice, Bob], "alice") == [Alice]
  {
    LowerAlice();
    AliceMatches();
    BobDoesNotMatch();
    assert FilterMatching([Bob], "alice") == [] by {
      assert [Bob][1..] == [];
    }
    assert [Alice, Bob][1..] == [Bob];
    assert FilterMatching([Alice, Bob], "alice") == [Alice] + FilterMatching([Bob], "alice");
  }

  /** The counters for Alice (not checked in) and Bob (checked in). */
  lemma CountersForTestData()
    ensures TotalCountLabel([Alice, Bob]) == "Total: 2"
    ensures CheckedInCountLabel([Alice, Bob]) == "Checked In: 1"
  {
    assert [Alice, Bob][1..] == [Bob];
    assert [Bob][1..] == [];
    assert CountCheckedIn([Bob]) == 1;
    assert CountCheckedIn([Alice, Bob]) == 1;
    assert NatToString(1) == "1";
    assert NatToString(2) == "2";
  }

  // ---------------------------------------------------------------------
  // The component

  /** The `checkInByQRCode` call the page makes. */
  datatype CheckInCall = CheckInByQrCode(eventId: Option<string>, qrCode: string)

  class EventDetail {
    var event: Option<EventRecord>
    var searchTerm: string
    var showQR: bool
    var checkInMode: bool
    var scannedCode: string
    var attendees: seq<Attendee>
    /** The toasts dispatched so far, oldest first. */
    var toasts: seq<Toast>

    constructor (event: Option<EventRecord>)
      ensures this.event == event && searchTerm == "" && !showQR && !checkInMode
      ensures scannedCode == "" && attendees == [] && toasts == []
    {
      this.event := event;
      searchTerm := "";
      showQR := false;
      checkInMode := false;
      scannedCode := "";
      attendees := [];
      toasts := [];
    }

    /** `eventId`: `event?.Id`. */
    function EventId(): (id: Option<string>)
      reads this
      ensures id.Some? <==> event.Some?
      ensures id.Some? ==> id.value == event.value.id
    {
      if event.Some? then Some(event.value.id) else None
    }

    /** The attendee wire: data replaces the list, an error is reported and
        keeps it. */
    method WiredAttendees(result: WireResult<seq<Attendee>>)
      modifies this`attendees, this`toasts
      ensures result.data.Some? ==> attendees == result.data.value && toasts == old(toasts)
      ensures result.data.None? ==> attendees == old(attendees)
      ensures result.data.None? && result.error.Some? ==>
        toasts == old(toasts) + [ErrorToast("Failed to load attendees")]
      ensures result.data.None? && result.error.None? ==> toasts == old(toasts)
    {
      if result.data.Some? {
        attendees := result.data.value;
      } else if result.error.Some? {
        toasts := toasts + [ErrorToast("Failed to load attendees")];
      }
    }

    method HandleSearchChange(value: string)
      modifies this`searchTerm
      ensures searchTerm == value
    {
      searchTerm := value;
    }

    method HandleToggleQR()
      modifies this`showQR
      ensures showQR == !old(showQR)
    {
      showQR := !showQR;
    }

    method HandleToggleCheckInMode()
      modifies this`checkInMode, this`scannedCode
      ensures checkInMode == !old(checkInMode) && scannedCode == ""
    {
      checkInMode := !checkInMode;
      scannedCode := "";
    }

    method HandleScannedCodeChange(value: string)
      modifies this`scannedCode
      ensures scannedCode == value
    {
      scannedCode := value;
    }

    /** `handleScanCheckIn`. `reply` is the backend's answer to the call
        made, if any, and `refresh` the outcome of refreshing the attendee
        wire after a successful check-in. Without a code nothing is called
        and an error is reported; a successful check-in clears the code and
        requests the refresh, whose failure lands in the same error handler
        after the success toast. */
    method HandleScanCheckIn(reply: Reply<Attendee>, refresh: Reply<()>)
      returns (call: Option<CheckInCall>, refreshed: bool)
      modifies this`scannedCode, this`toasts
      ensures refreshed <==> old(scannedCode) != "" && reply.Resolved?
      ensures old(scannedCode) == "" ==>
        call.None? && scannedCode == "" && toasts == old(toasts) + [ErrorToast("Please enter a QR code")]
      ensures old(scannedCode) != "" ==> call == Some(CheckInByQrCode(EventId(), old(scannedCode)))
      ensures old(scannedCode) != "" && reply.Resolved? ==>
        scannedCode == ""
        && toasts == old(toasts) + [SuccessToast(reply.value.name + " has been checked in!")]
                                 + (if refresh.Rejected?
                                    then [ErrorToast(ErrorText(refresh.bodyMessage, "Check-in failed"))]
                                    else [])
      ensures old(scannedCode) != "" && reply.Rejected? ==>
        scannedCode == old(scannedCode)
        && toasts == old(toasts) + [ErrorToast(ErrorText(reply.bodyMessage, "Check-in failed"))]
    {
      refreshed := false;
      if scannedCode == "" {
        toasts := toasts + [ErrorToast("Please enter a QR code")];
        return None, false;
      }
      call := Some(CheckInByQrCode(EventId(), scannedCode));
      match reply {
        case Resolved(result) =>
          toasts := toasts + [SuccessToast(result.name + " has been checked in!")];
          scannedCode := "";
          refreshed := true;
          if refresh.Rejected? {
            toasts := toasts + [ErrorToast(ErrorText(refresh.bodyMessage, "Check-in failed"))];
          }
        case Rejected(bodyMessage) =>
          toasts := toasts + [ErrorToast(ErrorText(bodyMessage, "Check-in failed"))];
      }
    }
  }
}
