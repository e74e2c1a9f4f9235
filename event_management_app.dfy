/**
 * The application shell (component `eventManagementApp`): the event list
 * delivered by the `getEvents` wire, and the switch between the list view
 * and the detail view of one selected event.
 */
module EventManagementApp {
  import opened Common
  import opened Records

  const ListView: string := "list"
  const DetailView: string := "detail"

  /** `isListView`. */
  predicate IsListView(currentView: string) {
    currentView == ListView
  }

  /** `isDetailView`. */
  predicate IsDetailView(currentView: string) {
    currentView == DetailView
  }

  /** The two views never show together. */
  lemma ViewsExclusive(currentView: string)
    ensures !(IsListView(currentView) && IsDetailView(currentView))
    ensures currentView in {ListView, DetailView} ==>
      (IsListView(currentView) <==> !IsDetailView(currentView))
  {
  }

  /** `events.find(e => e.Id === eventId)`: the first event with that Id. */
  function FindById(events: seq<EventRecord>, eventId: string): (found: Option<EventRecord>)
    ensures found.None? <==> forall k :: 0 <= k < |events| ==> events[k].id != eventId
    ensures found.Some? ==>
      found.value.id == eventId
      && exists k :: 0 <= k < |events| && events[k] == found.value
                     && forall m :: 0 <= m < k ==> events[m].id != eventId
  {
    if events == [] then None
    else if events[0].id == eventId then Some(events[0])
    else
      var rest := FindById(events[1..], eventId);
      assert forall k :: 1 <= k < |events| ==> events[k] == events[1..][k - 1];
      if rest.Some? then
        var k :| 0 <= k < |events[1..]| && events[1..][k] == rest.value && rest.value.id == eventId
          && forall m :: 0 <= m < k ==> events[1..][m].id != eventId;
        assert events[k + 1] == rest.value;
        rest
      else
        rest
  }

  class EventManagementApp {
    var currentView: string
    var selectedEvent: Option<EventRecord>
    var events: seq<EventRecord>
    var isLoading: bool
    /** The toasts dispatched so far, oldest first. */
    var toasts: seq<Toast>

    /** The shell is in one of its two views, and the list view has no
        selection. */
    predicate Valid()
      reads this
    {
      (currentView == ListView || currentView == DetailView)
      && (currentView == ListView ==> selectedEvent.None?)
    }

    constructor ()
      ensures Valid()
      ensures currentView == ListView && selectedEvent.None? && events == [] && isLoading && toasts == []
    {
      currentView := ListView;
      selectedEvent := None;
      events := [];
      isLoading := true;
      toasts := [];
    }

    /** The events wire: any delivery ends loading; data replaces the list,
        an error is reported and keeps it. */
    method WiredEvents(result: WireResult<seq<EventRecord>>)
      requires Valid()
      modifies this`isLoading, this`events, this`toasts
      ensures Valid()
      ensures !isLoading
      ensures result.data.Some? ==> events == result.data.value && toasts == old(toasts)
      ensures result.data.None? ==> events == old(events)
      ensures result.data.None? && result.error.Some? ==>
        toasts == old(toasts) + [ErrorToast("Failed to load events")]
      ensures result.data.None? && result.error.None? ==> toasts == old(toasts)
    {
      isLoading := false;
      if result.data.Some? {
        events := result.data.value;
      } else if result.error.Some? {
        toasts := toasts + [ErrorToast("Failed to load events")];
      }
    }

    /** `handleSelectEvent`: selects the first event with the given Id (none
        when no event has it) and shows the detail view. */
    method HandleSelectEvent(eventId: string)
      requires Valid()
      modifies this`selectedEvent, this`currentView
      ensures Valid()
      ensures IsDetailView(currentView) && !IsListView(currentView)
      ensures selectedEvent == FindById(events, eventId)
    {
      selectedEvent := FindById(events, eventId);
      currentView := DetailView;
    }

    /** `handleBackToList`: back to the list, with nothing selected, and a
        refresh of the event wire requested. The refresh's outcome is not
        handled by the component. */
    method HandleBackToList() returns (refreshRequested: bool)
      requires Valid()
      modifies this`selectedEvent, this`currentView
      ensures Valid()
      ensures IsListView(currentView) && selectedEvent.None?
      ensures refreshRequested
    {
      currentView := ListView;
      selectedEvent := None;
      refreshRequested := true;
    }
  }

  /** The shell's test data: two events, the first with one attendee. */
  const TestConference: EventRecord :=
    EventRecord("001000000000001", "Test Conference", Some("2024-03-15"), "Test Venue",
                Some("Test description"), None, Some(["a01"]))
  const Workshop: EventRecord :=
    EventRecord("001000000000002", "Workshop", Some("2024-03-20"), "Online",
                Some("Workshop desc"), None, Some([]))

  /** Loading the two events and selecting the first by its Id replaces the
      list view by the detail view of that event. */
  method SelectFromLoadedList() returns (app: EventManagementApp)
    ensures app.Valid() && !app.isLoading && app.events == [TestConference, Workshop]
    ensures IsDetailView(app.currentView) && !IsListView(app.currentView)
    ensures app.selectedEvent == Some(TestConference)
  {
    app := new EventManagementApp();
    app.WiredEvents(WireResult(Some([TestConference, Workshop]), None));
    app.HandleSelectEvent(TestConference.id);
  }
}
