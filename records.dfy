/**
 * The records the components exchange with the backend and with each other:
 * the `Attendee__c` and `Event__c` records, the toast notifications the
 * components dispatch, and the result a wire adapter delivers.
 */
module Records {
  import opened Common

  /** An `Attendee__c` record: `Id`, `Name`, `Email__c`, `QR_Code__c`,
      `Checked_In__c` and `Check_In_Time__c` (absent until checked in). */
  datatype Attendee = Attendee(
    id: string,
    name: string,
    email: string,
    qrCode: string,
    checkedIn: bool,
    checkInTime: Option<string>)

  /** An `Event__c` record: `Id`, `Name`, `Date__c`, `Location__c`,
      `Description__c`, `Status__c` and the related `Attendees__r` list
      (kept as the related records' Ids; absent when the query returned none). */
  datatype EventRecord = EventRecord(
    id: string,
    name: string,
    date: Option<string>,
    location: string,
    description: Option<string>,
    status: Option<string>,
    attendees: Option<seq<string>>)

  /** A `ShowToastEvent` a component dispatched. */
  datatype Toast = Toast(title: string, message: string, variant: string)

  function ErrorToast(message: string): Toast {
    Toast("Error", message, "error")
  }

  function SuccessToast(message: string): Toast {
    Toast("Success", message, "success")
  }

  /** What a wire adapter hands to its handler: `data`, `error`, or neither
      while loading. */
  datatype WireResult<+T> = WireResult(data: Option<T>, error: Option<string>)
}
