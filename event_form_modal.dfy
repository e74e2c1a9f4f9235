/**
 * The "Create New Event" modal (component `eventFormModal`): four text
 * fields, a required-field check on name, date and location, and the
 * `createEvent` call, which sends an empty description as null.
 *
 * The backend's answer to `createEvent` is a parameter; the call the modal
 * makes is returned, and `close(...)` is recorded.
 */
module EventFormModal {
  import opened Common
  import opened Records

  const CreateFailed: string := "Failed to create event"

  /** The fields `handleCreate` insists on: name, date and location. */
  predicate RequiredFieldsPresent(name: string, eventDate: string, location: string) {
    name != "" && eventDate != "" && location != ""
  }

  /** `description || null`. */
  function DescriptionOrNull(description: string): (sent: Option<string>)
    ensures sent.None? <==> description == ""
    ensures sent.Some? ==> sent.value == description
  {
    if description == "" then None else Some(description)
  }

  /** The `createEvent` call. */
  datatype CreateCall = CreateEvent(name: string, eventDate: string, location: string, description: Option<string>)

  /** What the modal was closed with: nothing (cancel), the created record,
      or an `{error}` object. */
  datatype CloseResult = Dismissed | Created(record: EventRecord) | Error(error: string)

  class EventFormModal {
    /** The modal's `label`. */
    var title: string
    var name: string
    var eventDate: string
    var location: string
    var description: string
    /** `None` while open; what `close` was called with once closed. */
    var closed: Option<CloseResult>

    constructor ()
      ensures title == "Create New Event"
      ensures name == "" && eventDate == "" && location == "" && description == ""
      ensures closed.None?
    {
      title := "Create New Event";
      name := "";
      eventDate := "";
      location := "";
      description := "";
      closed := None;
    }

    method HandleNameChange(value: string)
      modifies this`name
      ensures name == value
    {
      name := value;
    }

    method HandleDateChange(value: string)
      modifies this`eventDate
      ensures eventDate == value
    {
      eventDate := value;
    }

    method HandleLocationChange(value: string)
      modifies this`location
      ensures location == value
    {
      location := value;
    }

    method HandleDescriptionChange(value: string)
      modifies this`description
      ensures description == value
    {
      description := value;
    }

    method HandleCancel()
      modifies this`closed
      ensures closed == Some(Dismissed)
    {
      closed := Some(Dismissed);
    }

    /** `handleCreate`. `reply` is the backend's answer to the call made, if
        any. Without name, date and location nothing is called and the
        modal stays open. */
    method HandleCreate(reply: Reply<EventRecord>) returns (call: Option<CreateCall>)
      modifies this`closed
      ensures !RequiredFieldsPresent(name, eventDate, location) ==> call.None? && closed == old(closed)
      ensures RequiredFieldsPresent(name, eventDate, location) ==>
        call == Some(CreateEvent(name, eventDate, location, DescriptionOrNull(description)))
      ensures call.Some? && reply.Resolved? ==> closed == Some(Created(reply.value))
      ensures call.Some? && reply.Rejected? ==>
        closed == Some(Error(ErrorText(reply.bodyMessage, CreateFailed)))
    {
      if name == "" || eventDate == "" || location == "" {
        return None;
      }
      call := Some(CreateEvent(name, eventDate, location, DescriptionOrNull(description)));
      match reply {
        case Resolved(record) => closed := Some(Created(record));
        case Rejected(bodyMessage) => closed := Some(Error(ErrorText(bodyMessage, CreateFailed)));
      }
    }
  }
}
