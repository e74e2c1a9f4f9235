# Event check-in components, modelled in Dafny

This project models the logic of the Lightning Web Components of a
Salesforce event check-in application: an app shell that switches between an
event list and the detail page of one event; event and attendee cards; two
modal forms (create an event, add or edit an attendee); a QR code display
that draws a code as an SVG; and a camera QR scanner that reads codes from
video frames and emits each scan at most once per 1500 ms.

One Dafny module stands for each component (`QrCameraScanner`,
`QrCodeDisplay`, `AttendeeFormModal`, `EventDetail`, `EventFormModal`,
`EventManagementApp`, `EventCard`, `AttendeeCard`). Two shared modules hold
the parts they have in common. `Common` has `Option`, the `Reply` of a
backend call (resolved, or rejected with an optional `body.message`),
decimal printing, ASCII lower-casing, `includes` and JavaScript's `\s`.
`Records` has the `Event__c` and `Attendee__c` records, toasts and wire
results.

Components whose handlers change fields are classes whose methods change
those fields. Getters are pure functions. The outside world enters as
parameters:

- a backend call's answer is a `Reply` parameter, and the call the component
  makes is returned;
- toasts are appended to a `toasts` field;
- `close(...)` of a modal is recorded in a `closed` field;
- `Date.now()` is the `now` parameter of a scanner tick;
- the camera request's outcome is an `Acquisition` parameter;
- the QR decoder's answer is an `Option<string>` parameter;
- the QR library's code for a value is a `QrSymbol`: a module count and an
  `isDark` predicate.

The scanner has two layers. `ScannerState` and its step functions describe
each handler as a function of the old fields. Class `Scanner` changes its
fields and ensures that the new state is that step of the old state. The
lemmas about the steps and about runs of events (`Execute`) carry the
properties: the flag invariant, the debounce over any sequence of events,
idempotent stop, and a scan loop that, once ended with the camera still on,
never restarts before disconnect. A tick runs only while the component has
one pending.

## Model

| member | source | states |
|---|---|---|
| Common.ErrorText | force-app/main/default/lwc/attendeeFormModal/attendeeFormModal.js:71 | `error.body?.message \|\| fallback`: the body message when present and non-empty, otherwise the fallback; never empty when the fallback is not |
| Common.NatToString | force-app/main/default/lwc/eventDetail/eventDetail.js:63-70 | a count printed in decimal is non-empty, all digits, and has no leading zero except for 0 itself |
| Common.ParseNatToString | force-app/main/default/lwc/eventDetail/eventDetail.js:63-70 | reading a printed count back gives the count (decimal printing loses nothing) |
| Common.NatToStringInjective | force-app/main/default/lwc/eventCard/eventCard.js:16-19 | two different counts never print the same |
| Common.Lower | force-app/main/default/lwc/eventDetail/eventDetail.js:51-55 | `toLowerCase` keeps the length and maps each character on its own (ASCII letters only) |
| Common.ContainsWitness | force-app/main/default/lwc/eventDetail/eventDetail.js:54-55 | when `includes` succeeds, the term occurs at the returned position |
| Common.OccursContained | force-app/main/default/lwc/eventDetail/eventDetail.js:54-55 | a term occurring at any position is found by `includes` |
| Common.ContainsIffOccurs | force-app/main/default/lwc/eventDetail/eventDetail.js:54-55 | `includes` is true exactly when the term occurs at some position |
| QrCameraScanner.AcquisitionErrorMessage | force-app/main/default/lwc/qrCameraScanner/qrCameraScanner.js:80-87 | `NotAllowedError` gives the permission text and only it does; `NotFoundError` gives "No camera found on this device." and only it does; any other name gives "Failed to start camera: " + message; never empty, never the unsupported or library text |
| QrCameraScanner.Debounce | force-app/main/default/lwc/qrCameraScanner/qrCameraScanner.js:118-124 | a payload is emitted iff it is non-empty and `now - lastScanTime > 1500`; an emission records `now`, anything else keeps the old time |
| QrCameraScanner.StartStep | force-app/main/default/lwc/qrCameraScanner/qrCameraScanner.js:45-89 | with a stream held nothing changes; unsupported: both flags false and "Camera is not supported in this browser."; failure: both flags false and the mapped message; granted: error cleared, both flags up, the stream held |
| QrCameraScanner.LoadedMetadataStep | force-app/main/default/lwc/qrCameraScanner/qrCameraScanner.js:68-75 | `onloadedmetadata` ends initialising, starts scanning, requests the first tick and changes nothing else |
| QrCameraScanner.ScanStep | force-app/main/default/lwc/qrCameraScanner/qrCameraScanner.js:91-128 | a tick reschedules exactly once iff active with a stream, and a tick is pending afterwards exactly then; otherwise the loop ends, nothing else changes and nothing is emitted; emits iff the frame is ready and the debounce lets the payload through; only the frame handle, scan time and pending flag change |
| QrCameraScanner.StopStep | force-app/main/default/lwc/qrCameraScanner/qrCameraScanner.js:130-142 | stop leaves no frame handle, no stream and all three flags false, cancels the pending tick when its handle is stored (the first tick's is not, so it stays pending), and keeps the error message, scan time and `active` |
| QrCameraScanner.RenderStep | force-app/main/default/lwc/qrCameraScanner/qrCameraScanner.js:27-39 | inactive: no change; library not loaded: a failed load sets "Failed to load QR scanner library.", a successful one marks it loaded and starts the camera; loaded: starts the camera (a no-op while a stream is held) |
| QrCameraScanner.InvPreserved | force-app/main/default/lwc/qrCameraScanner/qrCameraScanner.js:45-142 | the initial fields and every step keep the invariant: initialising implies started, started implies no error and a loaded library, a held stream implies started |
| QrCameraScanner.IsCameraActive | force-app/main/default/lwc/qrCameraScanner/qrCameraScanner.js:19-21 | no contract of its own; specified by `CameraActiveIffStarted` |
| QrCameraScanner.CameraActiveIffStarted | force-app/main/default/lwc/qrCameraScanner/qrCameraScanner.js:19-21 | with a camera request taken as one atomic step, in every reachable state `isCameraActive` is exactly `_cameraStarted`, and a held stream means the camera is active |
| QrCameraScanner.ShowSpinnerAsWritten | force-app/main/default/lwc/qrCameraScanner/qrCameraScanner.js:23-25 | no contract of its own; specified by `SpinnerNeverShown` |
| QrCameraScanner.SpinnerNeverShown | force-app/main/default/lwc/qrCameraScanner/qrCameraScanner.js:23-25 | the `showSpinner` getter as written is false in every reachable state (see Findings) |
| QrCameraScanner.ShowSpinner | force-app/main/default/lwc/qrCameraScanner/qrCameraScanner.js:23-25 | no contract of its own; the corrected getter, specified by `SpinnerWhileAcquiring` |
| QrCameraScanner.SpinnerWhileAcquiring | force-app/main/default/lwc/qrCameraScanner/qrCameraScanner.js:47-49 | with the corrected getter, a granted camera shows the spinner until the video reports its metadata, where the as-written getter stays hidden |
| QrCameraScanner.StartOutcome | force-app/main/default/lwc/qrCameraScanner/qrCameraScanner.js:51-88 | a camera request ends with the camera active iff it was granted, with an error message iff it was not, and holds no stream after a failure |
| QrCameraScanner.StopIdempotent | force-app/main/default/lwc/qrCameraScanner/qrCameraScanner.js:130-142 | stopping a second time changes nothing |
| QrCameraScanner.ApplyScanTime | force-app/main/default/lwc/qrCameraScanner/qrCameraScanner.js:118-124 | any one event emits at most one scan; only an emission moves the recorded time, to the scan's time, more than 1500 ms after the previous one, with a non-empty payload |
| QrCameraScanner.ScansSpacedApart | force-app/main/default/lwc/qrCameraScanner/qrCameraScanner.js:118-124 | over any sequence of events, including stop and restart, any two emitted scans are more than 1500 ms apart whatever their payloads, and all come after the time recorded at the start |
| QrCameraScanner.ExecutePreservesInv | force-app/main/default/lwc/qrCameraScanner/qrCameraScanner.js:27-142 | every state reached by any sequence of events keeps the invariant |
| QrCameraScanner.StreamKeptUntilDisconnected | force-app/main/default/lwc/qrCameraScanner/qrCameraScanner.js:36-46 | with a camera request taken as one atomic step, a held stream is never replaced until disconnect: at most one stream is acquired through this path |
| QrCameraScanner.LoopStaysEnded | force-app/main/default/lwc/qrCameraScanner/qrCameraScanner.js:36-92 | once a tick has ended the loop with the stream still held, no sequence of events short of disconnect emits a scan, requests a tick or asks for metadata, and the stream stays the same |
| QrCameraScanner.LeftoverTickScansNewStream | force-app/main/default/lwc/qrCameraScanner/qrCameraScanner.js:68-92 | the handle-less first tick survives a disconnect; if a new stream is granted before it runs, it scans that stream while `awaitingMetadata` and `isInitializing` still hold, that is before the new stream's `loadedmetadata` handler has run |
| QrCameraScanner.ReactivationDoesNotResumeScanning | force-app/main/default/lwc/qrCameraScanner/qrCameraScanner.js:27-92 | clearing `active` while scanning, letting a tick pass, then setting it again and re-rendering leaves the camera active on the same stream but scans nothing more |
| QrCameraScanner.SameCodeScannedOnce | force-app/main/default/lwc/qrCameraScanner/qrCameraScanner.js:118-124 | the same code on consecutive ticks is emitted once |
| QrCameraScanner.SecondCodeWaitsForWindow | force-app/main/default/lwc/qrCameraScanner/qrCameraScanner.js:118-124 | a different code 1000 ms later is dropped, and emitted when decoded again 1600 ms after the first |
| QrCameraScanner.Scanner.constructor | force-app/main/default/lwc/qrCameraScanner/qrCameraScanner.js:6-17 | the field initialisers; the invariant holds |
| QrCameraScanner.Scanner.SetActive | force-app/main/default/lwc/qrCameraScanner/qrCameraScanner.js:6 | only `active` changes |
| QrCameraScanner.Scanner.StartCamera | force-app/main/default/lwc/qrCameraScanner/qrCameraScanner.js:45-89 | the new fields are `StartStep` of the old; with a camera request taken as one atomic step, one stream is acquired only when none was held and the camera was granted |
| QrCameraScanner.Scanner.RenderedCallback | force-app/main/default/lwc/qrCameraScanner/qrCameraScanner.js:27-39 | the new fields are `RenderStep` of the old |
| QrCameraScanner.Scanner.OnLoadedMetadata | force-app/main/default/lwc/qrCameraScanner/qrCameraScanner.js:68-75 | the new fields are `LoadedMetadataStep` of the old |
| QrCameraScanner.Scanner.ScanFrame | force-app/main/default/lwc/qrCameraScanner/qrCameraScanner.js:91-128 | the new fields, whether a tick was scheduled and what was emitted are `ScanStep` of the old; emitted scans stay more than 1500 ms apart |
| QrCameraScanner.Scanner.StopCamera | force-app/main/default/lwc/qrCameraScanner/qrCameraScanner.js:130-142 | the new fields are `StopStep` of the old; it cancels the stored frame and releases the held stream, and a second call changes nothing |
| QrCameraScanner.Scanner.DisconnectedCallback | force-app/main/default/lwc/qrCameraScanner/qrCameraScanner.js:41-43 | disconnecting stops the camera: the new fields are `StopStep` of the old, the held stream is released, and the record of scans and acquisitions is unchanged |
| QrCodeDisplay.CellSize | force-app/main/default/lwc/qrCodeDisplay/qrCodeDisplay.js:46 | `floor(size/(n+2))`: the largest cell that fits `n + 2` times into `size` |
| QrCodeDisplay.SvgSize | force-app/main/default/lwc/qrCodeDisplay/qrCodeDisplay.js:47 | `svgSize <= size` and `size - svgSize < n + 2` |
| QrCodeDisplay.DarkInRowExact | force-app/main/default/lwc/qrCodeDisplay/qrCodeDisplay.js:62-63 | the inner loop visits exactly the dark modules of the row, by increasing column, each once |
| QrCodeDisplay.DarkInRowsExact | force-app/main/default/lwc/qrCodeDisplay/qrCodeDisplay.js:61-73 | the nested loops visit exactly the dark modules of the first rows, in row-major order, each once |
| QrCodeDisplay.DarkModulesExact | force-app/main/default/lwc/qrCodeDisplay/qrCodeDisplay.js:61-73 | one entry per `(row, col)` in the grid with `isDark`, no other, sorted row-major, no repeats |
| QrCodeDisplay.SvgFor | force-app/main/default/lwc/qrCodeDisplay/qrCodeDisplay.js:45-73 | no contract of its own; specified by `SvgShape`, `DarkModulesExact` and `BuildSvg` |
| QrCodeDisplay.SvgShape | force-app/main/default/lwc/qrCodeDisplay/qrCodeDisplay.js:50-73 | width, height and view box are `svgSize`; the first rect is the white `svgSize`×`svgSize` background; one black rect per dark module follows |
| QrCodeDisplay.CellsInsideQuietZone | force-app/main/default/lwc/qrCodeDisplay/qrCodeDisplay.js:64-68 | every module square lies within `[cellSize, svgSize - cellSize]` on both axes, leaving a one-module border |
| QrCodeDisplay.CellWithinGrid | force-app/main/default/lwc/qrCodeDisplay/qrCodeDisplay.js:65-66 | a cell at index `i < n` starts at least one cell in and ends at least one cell before the far edge |
| QrCodeDisplay.BuildSvg | force-app/main/default/lwc/qrCodeDisplay/qrCodeDisplay.js:45-73 | the nested loops build exactly the SVG described by `SvgFor` |
| QrCodeDisplay.Container.constructor | force-app/main/default/lwc/qrCodeDisplay/qrCodeDisplay.js:30 | a container holds the given children |
| QrCodeDisplay.QrCodeDisplay.constructor | force-app/main/default/lwc/qrCodeDisplay/qrCodeDisplay.js:6-10 | the property defaults: empty value, size 200, library not loaded |
| QrCodeDisplay.QrCodeDisplay.RenderQR | force-app/main/default/lwc/qrCodeDisplay/qrCodeDisplay.js:27-79 | an empty value or a missing container changes nothing; otherwise all old children are removed and the container holds exactly the new SVG (nothing when the library throws) |
| QrCodeDisplay.QrCodeDisplay.RenderedCallback | force-app/main/default/lwc/qrCodeDisplay/qrCodeDisplay.js:12-25 | renders once the library is loaded; a failed load leaves the container as it was |
| AttendeeFormModal.ModalTitle | force-app/main/default/lwc/attendeeFormModal/attendeeFormModal.js:23-25 | "Edit Attendee" iff the mode is "edit", otherwise "Add Attendee" |
| AttendeeFormModal.SubmitLabel | force-app/main/default/lwc/attendeeFormModal/attendeeFormModal.js:27-29 | "Save Changes" iff the mode is "edit", otherwise "Add Attendee" |
| AttendeeFormModal.TitleMatchesSubmitLabel | force-app/main/default/lwc/attendeeFormModal/attendeeFormModal.js:23-29 | the title and the button agree on the mode |
| AttendeeFormModal.EmailRegexTest | force-app/main/default/lwc/attendeeFormModal/attendeeFormModal.js:49-50 | no contract of its own; specified by `EmailRegexIffShape` |
| AttendeeFormModal.EmailRegexIffShape | force-app/main/default/lwc/attendeeFormModal/attendeeFormModal.js:49-52 | the email pattern accepts a string iff it has no whitespace, exactly one '@' with text before it, and a '.' after the '@' with text on both sides |
| AttendeeFormModal.EmailAccepted | force-app/main/default/lwc/attendeeFormModal/attendeeFormModal.js:49-52 | "alice@example.com" passes |
| AttendeeFormModal.EmailWithoutDotRejected | force-app/main/default/lwc/attendeeFormModal/attendeeFormModal.js:49-52 | "alice@example" fails |
| AttendeeFormModal.EmailWithSpaceRejected | force-app/main/default/lwc/attendeeFormModal/attendeeFormModal.js:49-52 | an address with a space fails |
| AttendeeFormModal.AttendeeFormModal.constructor | force-app/main/default/lwc/attendeeFormModal/attendeeFormModal.js:5-13 | empty fields, not initialised, open |
| AttendeeFormModal.AttendeeFormModal.ConnectedCallback | force-app/main/default/lwc/attendeeFormModal/attendeeFormModal.js:15-21 | in edit mode with an attendee, copies its name and email once; otherwise, or on a second call, changes nothing |
| AttendeeFormModal.AttendeeFormModal.HandleNameChange | force-app/main/default/lwc/attendeeFormModal/attendeeFormModal.js:31-33 | only `name` changes |
| AttendeeFormModal.AttendeeFormModal.HandleEmailChange | force-app/main/default/lwc/attendeeFormModal/attendeeFormModal.js:35-37 | only `email` changes |
| AttendeeFormModal.AttendeeFormModal.HandleCancel | force-app/main/default/lwc/attendeeFormModal/attendeeFormModal.js:39-41 | closes with no result |
| AttendeeFormModal.ValidInput | force-app/main/default/lwc/attendeeFormModal/attendeeFormModal.js:44-52 | no contract of its own; specified by `AttendeeFormModal.HandleSubmit` |
| AttendeeFormModal.AttendeeFormModal.HandleSubmit | force-app/main/default/lwc/attendeeFormModal/attendeeFormModal.js:43-73 | an empty field or a failing email: no call, stays open; edit mode calls update with the attendee's Id, add mode calls add with the event Id; closes with the saved record, or with the body message or "Operation failed" |
| EventDetail.FilterMembership | force-app/main/default/lwc/eventDetail/eventDetail.js:52-56 | the filter keeps exactly the listed attendees that match and never grows the list |
| EventDetail.FilterConcat | force-app/main/default/lwc/eventDetail/eventDetail.js:52-56 | filtering a concatenation concatenates the filtered parts, so the list order is kept |
| EventDetail.FilteredAttendees | force-app/main/default/lwc/eventDetail/eventDetail.js:49-57 | no contract of its own; specified by `FilteredAttendeesSpec` |
| EventDetail.FilteredAttendeesSpec | force-app/main/default/lwc/eventDetail/eventDetail.js:49-57 | an empty term returns the list unchanged; otherwise an attendee is shown iff it is listed and its lower-cased name or email contains the lower-cased term |
| EventDetail.HasAttendees | force-app/main/default/lwc/eventDetail/eventDetail.js:45-47 | no contract of its own; specified by `HasAttendeesAgreesWithFilter` |
| EventDetail.HasAttendeesAgreesWithFilter | force-app/main/default/lwc/eventDetail/eventDetail.js:45-57 | `hasAttendees` holds iff the unfiltered list shows someone, and without attendees no search term shows anyone |
| EventDetail.NoSearchResults | force-app/main/default/lwc/eventDetail/eventDetail.js:59-61 | true iff a term is entered and no attendee matches it |
| EventDetail.CountCheckedInBounds | force-app/main/default/lwc/eventDetail/eventDetail.js:68 | the checked-in count is at most the list length, equals it iff everyone is checked in, and is 0 iff nobody is |
| EventDetail.TotalCountLabel | force-app/main/default/lwc/eventDetail/eventDetail.js:63-65 | no contract of its own; specified by `CountLabelsReadBack` |
| EventDetail.CheckedInCountLabel | force-app/main/default/lwc/eventDetail/eventDetail.js:67-70 | no contract of its own; specified by `CountLabelsReadBack` |
| EventDetail.CountLabelsReadBack | force-app/main/default/lwc/eventDetail/eventDetail.js:63-70 | each label is "Total: " or "Checked In: " followed by digits that read back as the list length or the checked-in count |
| EventDetail.CheckInModeLabel | force-app/main/default/lwc/eventDetail/eventDetail.js:76-78 | "Close Scanner" iff check-in mode, else "QR Scanner" |
| EventDetail.CheckInModeVariant | force-app/main/default/lwc/eventDetail/eventDetail.js:80-82 | "brand" iff check-in mode, else "neutral" |
| EventDetail.QrToggleIcon | force-app/main/default/lwc/eventDetail/eventDetail.js:72-74 | "utility:hide" iff the QR codes are shown, else "utility:preview" |
| EventDetail.NoOccurrenceByPair | force-app/main/default/lwc/eventDetail/eventDetail.js:54-55 | a string whose neighbours never spell the term's first two characters does not include it |
| EventDetail.AliceMatches | force-app/main/default/lwc/eventDetail/__tests__/eventDetail.test.js:143-164 | "alice" matches Alice Johnson |
| EventDetail.BobNameMisses | force-app/main/default/lwc/eventDetail/__tests__/eventDetail.test.js:143-164 | "alice" is not in Bob's lower-cased name |
| EventDetail.BobEmailMisses | force-app/main/default/lwc/eventDetail/__tests__/eventDetail.test.js:143-164 | "alice" is not in Bob's lower-cased email |
| EventDetail.BobDoesNotMatch | force-app/main/default/lwc/eventDetail/__tests__/eventDetail.test.js:143-164 | "alice" does not match Bob Smith |
| EventDetail.LowerAlice | force-app/main/default/lwc/eventDetail/__tests__/eventDetail.test.js:151 | the test's search term "alice" is unchanged by lower-casing |
| EventDetail.SearchAliceFindsOne | force-app/main/default/lwc/eventDetail/__tests__/eventDetail.test.js:143-164 | searching "alice" among Alice and Bob shows Alice only |
| EventDetail.CountersForTestData | force-app/main/default/lwc/eventDetail/__tests__/eventDetail.test.js:131-141 | with Alice not checked in and Bob checked in, the labels are "Total: 2" and "Checked In: 1" |
| EventDetail.EventDetail.EventId | force-app/main/default/lwc/eventDetail/eventDetail.js:31-33 | the event's Id, and none exactly when there is no event |
| EventDetail.EventDetail.constructor | force-app/main/default/lwc/eventDetail/eventDetail.js:11-19 | the field initialisers |
| EventDetail.EventDetail.WiredAttendees | force-app/main/default/lwc/eventDetail/eventDetail.js:22-29 | data replaces the list; an error keeps it and adds "Failed to load attendees" |
| EventDetail.EventDetail.HandleSearchChange | force-app/main/default/lwc/eventDetail/eventDetail.js:88-90 | only the search term changes |
| EventDetail.EventDetail.HandleToggleQR | force-app/main/default/lwc/eventDetail/eventDetail.js:92-94 | negates `showQR` and changes nothing else |
| EventDetail.EventDetail.HandleToggleCheckInMode | force-app/main/default/lwc/eventDetail/eventDetail.js:96-99 | negates check-in mode and clears the scanned code |
| EventDetail.EventDetail.HandleScannedCodeChange | force-app/main/default/lwc/eventDetail/eventDetail.js:101-103 | only the scanned code changes |
| EventDetail.EventDetail.HandleScanCheckIn | force-app/main/default/lwc/eventDetail/eventDetail.js:105-130 | an empty code: no call, "Please enter a QR code"; otherwise calls check-in with the event Id and code; success reports "<name> has been checked in!", clears the code and refreshes the attendees, and a failed refresh then adds its body message or "Check-in failed"; a failed check-in reports the body message or "Check-in failed", keeps the code and does not refresh |
| EventFormModal.DescriptionOrNull | force-app/main/default/lwc/eventFormModal/eventFormModal.js:43 | an empty description is sent as null, any other unchanged |
| EventFormModal.EventFormModal.constructor | force-app/main/default/lwc/eventFormModal/eventFormModal.js:6-11 | label "Create New Event", empty fields, open |
| EventFormModal.EventFormModal.HandleNameChange | force-app/main/default/lwc/eventFormModal/eventFormModal.js:13-15 | only `name` changes |
| EventFormModal.EventFormModal.HandleDateChange | force-app/main/default/lwc/eventFormModal/eventFormModal.js:17-19 | only `eventDate` changes |
| EventFormModal.EventFormModal.HandleLocationChange | force-app/main/default/lwc/eventFormModal/eventFormModal.js:21-23 | only `location` changes |
| EventFormModal.EventFormModal.HandleDescriptionChange | force-app/main/default/lwc/eventFormModal/eventFormModal.js:25-27 | only `description` changes |
| EventFormModal.EventFormModal.HandleCancel | force-app/main/default/lwc/eventFormModal/eventFormModal.js:29-31 | closes with no result |
| EventFormModal.RequiredFieldsPresent | force-app/main/default/lwc/eventFormModal/eventFormModal.js:34 | no contract of its own; specified by `EventFormModal.HandleCreate` |
| EventFormModal.EventFormModal.HandleCreate | force-app/main/default/lwc/eventFormModal/eventFormModal.js:33-49 | a missing name, date or location: no call, stays open; otherwise calls create with the description defaulted to null, and closes with the record or with the body message or "Failed to create event" |
| EventManagementApp.IsListView | force-app/main/default/lwc/eventManagementApp/eventManagementApp.js:26-28 | no contract of its own; specified by `ViewsExclusive` |
| EventManagementApp.IsDetailView | force-app/main/default/lwc/eventManagementApp/eventManagementApp.js:30-32 | no contract of its own; specified by `ViewsExclusive` |
| EventManagementApp.ViewsExclusive | force-app/main/default/lwc/eventManagementApp/eventManagementApp.js:26-32 | list and detail view are never both shown, and in the shell's two views exactly one is |
| EventManagementApp.FindById | force-app/main/default/lwc/eventManagementApp/eventManagementApp.js:51 | `find`: none iff no event has the Id; otherwise an event with that Id, and no earlier event has it |
| EventManagementApp.EventManagementApp.constructor | force-app/main/default/lwc/eventManagementApp/eventManagementApp.js:8-11 | list view, nothing selected, no events, loading |
| EventManagementApp.EventManagementApp.WiredEvents | force-app/main/default/lwc/eventManagementApp/eventManagementApp.js:15-24 | any delivery ends loading; data replaces the events; an error keeps them and adds "Failed to load events" |
| EventManagementApp.EventManagementApp.HandleSelectEvent | force-app/main/default/lwc/eventManagementApp/eventManagementApp.js:49-53 | selects the first event with the Id and shows the detail view |
| EventManagementApp.EventManagementApp.HandleBackToList | force-app/main/default/lwc/eventManagementApp/eventManagementApp.js:55-58 | shows the list view with nothing selected and requests a refresh of the event wire |
| EventManagementApp.SelectFromLoadedList | force-app/main/default/lwc/eventManagementApp/__tests__/eventManagementApp.test.js:81-102 | after loading two events, selecting the first by Id shows its detail view instead of the list |
| EventCard.AttendeeCount | force-app/main/default/lwc/eventCard/eventCard.js:17 | the related attendee list's length, 0 when the event or the list is missing |
| EventCard.AttendeeCountLabel | force-app/main/default/lwc/eventCard/eventCard.js:16-19 | no contract of its own; specified by `AttendeeCountLabelSpec` |
| EventCard.AttendeeCountLabelSpec | force-app/main/default/lwc/eventCard/eventCard.js:16-19 | "1 Attendee" iff the count is 1; any other count, 0 included, is the count followed by " Attendees" |
| EventCard.AttendeeCountLabelExamples | force-app/main/default/lwc/eventCard/__tests__/eventCard.test.js:46-61 | two attendees give "2 Attendees", one gives "1 Attendee", no event gives "0 Attendees" |
| EventCard.StatusLabel | force-app/main/default/lwc/eventCard/eventCard.js:21-23 | the status when present and non-empty, otherwise "Active"; never empty |
| EventCard.StatusBadgeClass | force-app/main/default/lwc/eventCard/eventCard.js:25-28 | no contract of its own; specified by `StatusBadgeClassSpec` |
| EventCard.StatusBadgeClassSpec | force-app/main/default/lwc/eventCard/eventCard.js:25-28 | the class is "status-badge status-" followed by the lower-cased status label, has no capital after the prefix, and is the same for statuses that differ only in letter case |
| EventCard.DefaultStatusBadge | force-app/main/default/lwc/eventCard/eventCard.js:21-28 | a missing status shows "Active" with class "status-badge status-active" |
| EventCard.SelectDetail | force-app/main/default/lwc/eventCard/eventCard.js:30-32 | the select event carries the event's Id; nothing is dispatched without an event |
| AttendeeCard.CheckInStatusLabel | force-app/main/default/lwc/attendeeCard/attendeeCard.js:7-9 | "Checked In" iff checked in, else "Not Checked In" |
| AttendeeCard.CheckInBadgeClass | force-app/main/default/lwc/attendeeCard/attendeeCard.js:11-15 | "checked-in-badge" iff checked in, else "not-checked-in-badge" |
| AttendeeCard.CheckInButtonVariant | force-app/main/default/lwc/attendeeCard/attendeeCard.js:17-19 | "success" iff checked in, else "neutral" |
| AttendeeCard.CheckInButtonLabel | force-app/main/default/lwc/attendeeCard/attendeeCard.js:21-23 | "Checked In" iff checked in, else "Check In" |
| AttendeeCard.CheckInIcon | force-app/main/default/lwc/attendeeCard/attendeeCard.js:25-29 | "utility:check" iff checked in, else "utility:toggle_off" |
| AttendeeCard.CheckedIn | force-app/main/default/lwc/attendeeCard/attendeeCard.js:7-29 | no contract of its own; specified by `CheckInViewFollowsFlag` |
| AttendeeCard.CheckInViewFollowsFlag | force-app/main/default/lwc/attendeeCard/attendeeCard.js:7-29 | label, badge, variant, button text and icon are all chosen by the one check-in flag and never disagree |
| AttendeeCard.FormattedCheckInTime | force-app/main/default/lwc/attendeeCard/attendeeCard.js:31-35 | empty without a check-in time, otherwise the host's formatting of it |
| AttendeeCard.HandleToggleCheckIn | force-app/main/default/lwc/attendeeCard/attendeeCard.js:37-41 | the togglecheckin event carries the attendee's Id |
| AttendeeCard.HandleEdit | force-app/main/default/lwc/attendeeCard/attendeeCard.js:43-45 | the edit event carries the whole record |
| AttendeeCard.HandleDelete | force-app/main/default/lwc/attendeeCard/attendeeCard.js:47-49 | the delete event carries the attendee's Id |
| AttendeeCard.CardEventsAgree | force-app/main/default/lwc/attendeeCard/attendeeCard.js:37-49 | the togglecheckin, delete and edit events of one card name the same attendee |

## Left out

- Browser and framework I/O: `getUserMedia`, the video element, canvas drawing, `requestAnimationFrame`/`cancelAnimationFrame`, `loadScript`, `refreshApex`, `LightningModal.open`, toast and custom-event dispatch, `console.error` logging of the QR code library's load and generation failures, and the backend calls. Their outcomes are parameters, and what the component sends is returned or recorded.
- EventDetail.Matches: every attendee record is assumed to carry `Name` and `Email__c`. Salesforce leaves an empty field out of the record. A missing `Email__c` makes `toLowerCase` throw inside `filteredAttendees` when a search term is entered and the name does not match, and the attendee form's `connectedCallback` then copies `undefined`. The model has no missing fields and no throwing getters.
- The jsQR decoder and the qrcode library are third-party code. They appear as a decoded `Option<string>` and as a `QrSymbol` (module count and `isDark`).
- `Date.now()` is the `now` parameter of a tick.
- Asynchrony in `_startCamera`: the camera request is one atomic step. Stopping the camera while the request is pending is not modelled, and the model does not claim it is safe.
- Re-entry of `_startCamera` while a `getUserMedia` or `loadScript` call is pending is not modelled. `_stream` is only set once `getUserMedia` resolves, so a second `renderedCallback` in that window passes the guard at line 46 and can request, and then overwrite and leak, a second stream. QrCameraScanner.StreamKeptUntilDisconnected and QrCameraScanner.Scanner.StartCamera hold only with the request taken as one step.
- QrCameraScanner.Apply: a tick runs only while one is pending, but the pending requests are one flag. Several callbacks pending at once are merged into one, and when a tick arrives stays an input.
- The first tick is requested from `onloadedmetadata` without keeping its handle, so stopping cannot cancel it. `LoadedMetadataStep` marks a tick pending without setting a frame handle, and `StopStep` leaves that tick pending. The tick ends if no stream is held when it runs. If a new stream was granted first, it scans that stream before the new stream's `loadedmetadata` handler has run, while `isInitializing` still holds (`LeftoverTickScansNewStream`). The metadata handler then requests a second callback chain, which the single pending flag merges with the first.
- QrCameraScanner.Scanner.StartCamera requires a loaded library. In the component, `_startCamera` is only reached from `renderedCallback` after the library has loaded.
- Common.Lower: lower-cases ASCII letters only; JavaScript's `toLowerCase` follows the Unicode tables.
- Locale formatting of dates and times (`formattedDate` in the event detail page and the event card, and the non-empty case of `formattedCheckInTime`) depends on the host locale. The time formatter is a parameter.
- The event detail page's `handleToggleCheckIn`, `handleAddAttendee`, `handleEditAttendee`, `handleDeleteAttendee` and `handleBack`, and the app's `handleNewEvent`, are left out. They only forward a backend or modal outcome to a toast or an event.
- The HTML templates are not part of this model.
- The event list component only has an emptiness getter (`hasEvents`) and forwards `selectevent`; it is not part of this model.
- QrCodeDisplay.QrCodeDisplay.RenderQR: the `title` attribute is kept as a field but plays no part in the drawing.

## Findings

| source | as written | input that shows it | evidently intended | confidence | as-written member | corrected member |
|---|---|---|---|---|---|---|
| force-app/main/default/lwc/qrCameraScanner/qrCameraScanner.js:23-25 | `showSpinner` is `isInitializing && !_cameraStarted`, but `_startCamera` raises `_cameraStarted` together with `isInitializing` (lines 48-49), and every path that clears `_cameraStarted` clears `isInitializing` too | any reachable state, e.g. right after a granted camera request: `isInitializing` and `_cameraStarted` are both true, so the spinner is hidden | the spinner shows while the camera initialises (`isInitializing`) | medium, not executed | QrCameraScanner.SpinnerNeverShown | QrCameraScanner.SpinnerWhileAcquiring |
