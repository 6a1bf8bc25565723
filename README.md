# Ticketing app: a Dafny model of its ticket logic

This project models the ticket logic of a small support-ticket tracker.
The tracker has an Express/Sequelize backend and a React frontend. The
model covers:

- **The `tickets` table** (`TicketModel`). It has the two enumerations
  (priority Low/Medium/High, status Open/In Progress/Closed), the column
  defaults, and the validators the ORM runs before a row is written.
  The title must be 1 to 255 characters, and title and description must
  each hold a character that is not white space.
- **The three request handlers** (`TicketController`).
  - `createTicket` is the pure decision `CreateTicket` followed by one
    insert in `TicketStore.Create`.
  - `getAllTickets` is `TicketStore.List`. It returns every row, newest
    first. The database's ordered query is `FindAllNewestFirst`.
  - `updateStatus` is `TicketStore.Update`. It looks the row up, assigns
    the fields one at a time under their conditions, then saves.
  - The table is a class holding a map from id to row. The fresh UUID and
    the clock are parameters.
- **The client's state reducer** (`TicketContext.Reduce`). It handles
  every action of `ticketReducer`.
- **The list view's rules** (`ViewTickets`): the badge colours, the
  status filter, the tab counts and the footer's status step.
- **The new-ticket form's rules** (`CreateForm`): the initial and reset
  values, single-field edits, the submit-disabled test and the form's
  badge colour.

Request bodies are modelled field by field. `None` means the field was
absent or null. `Some(s)` means the string `s` was sent. `Truthy` is
JavaScript truthiness for those two cases.

The model follows the code as written. In particular:

- An update with a status or priority outside its enum is not rejected.
  That field is silently left as it was, and the other supplied fields
  are still applied (`InvalidEnumIgnored`).
- Create reports only the first failed check as a single message. It does
  not collect every violated constraint.
- Create never reads a status from the body. A new ticket is always Open
  (`CreateIgnoresStatus`).
- Neither handler checks the title length or white space. A title longer
  than 255 characters, or a title or description made only of white
  space, passes the handler's own truthiness checks. The ORM's `len` or
  `notEmpty` validator then refuses it. That exception reaches the
  handler's catch-all, so the answer is a 500, not a 400, and nothing is
  written. The model keeps this behaviour (`Build` returns `None`;
  `CreateTicket` and `TicketStore.Update` answer `InternalError`).
- The ORM's `notEmpty` validator is read as "holds a character that is
  not white space", with JavaScript's set of white-space characters.

## Model

| member | source | states |
|---|---|---|
| `TicketModel.ParsePriority` | backend/src/models/tickets.models.js:26-30 | a string is accepted as a priority exactly when it is the name of one, and then names that priority |
| `TicketModel.ParseStatus` | backend/src/models/tickets.models.js:31-35 | a string is accepted as a status exactly when it is the name of one, and then names that status |
| `TicketModel.ValidTitle` | backend/src/models/tickets.models.js:11-18 | a valid title is 1..255 characters and holds a non-white-space character; a longer or blank title is refused |
| `TicketModel.ValidDescription` | backend/src/models/tickets.models.js:19-25 | a description is valid exactly when it holds a non-white-space character, so it is non-empty |
| `TicketModel.WellFormed` | backend/src/models/tickets.models.js:11-25 | a well-formed row has a title of 1..255 characters and a non-empty description, neither of them blank |
| `TicketModel.EnumNamesRoundTrip` | backend/src/models/tickets.models.js:26-35 | every priority and every status parses back from its stored string |
| `TicketModel.Build` | backend/src/models/tickets.models.js:5-41 | the ORM stores a row exactly when title and description pass their validators (title 1..255 characters, neither blank); the row is well formed, keeps the given id, title and description, defaults priority to Low and status to Open, and sets created_at = updated_at = now |
| `TicketController.Truthy` | backend/src/controllers/ticketController.js:7-14 | a field is truthy exactly when it is present and not the empty string |
| `TicketController.SuppliedStatus` | backend/src/controllers/ticketController.js:61-63 | a status is assigned exactly when the supplied one is truthy and in the enum, and it is the status that string names |
| `TicketController.SuppliedPriority` | backend/src/controllers/ticketController.js:66-68 | a priority is assigned exactly when the supplied one is truthy and in the enum, and it is the priority that string names |
| `TicketController.CreateTicket` | backend/src/controllers/ticketController.js:3-33 | 400 exactly when title or description is falsy ("Title and description are required") or a truthy priority is outside the enum ("Priority must be Low, Medium, or High"); otherwise 500 exactly when the ORM's validators refuse the title or description, in particular for a title over 255 characters or a blank title or description; a created ticket is well formed, has status Open, the supplied priority or Low, and equal timestamps |
| `TicketController.CreateIgnoresStatus` | backend/src/controllers/ticketController.js:5 | the body's status field never changes the create answer |
| `TicketController.ApplyUpdate` | backend/src/controllers/ticketController.js:61-70 | id and created_at are kept and updated_at is now; status and priority become the supplied value only when it is truthy and in its enum; title and description change only to a truthy supplied value and always do then |
| `TicketController.AssignFields` | backend/src/controllers/ticketController.js:61-70 | the step-by-step field assignments and the save's timestamp produce exactly the row `ApplyUpdate` describes |
| `TicketController.InsertNewestFirst` | backend/src/controllers/ticketController.js:38-40 | one insertion step of the newest-first ordering: the result holds the old rows and the new one and stays newest first |
| `TicketController.FindAllNewestFirst` | backend/src/controllers/ticketController.js:38-40 | returns every row of the table exactly once, ordered by created_at descending |
| `TicketController.TicketStore.constructor` | backend/src/models/tickets.models.js:5-41 | an empty table is valid |
| `TicketController.TicketStore.Create` | backend/src/controllers/ticketController.js:3-33 | answers as `CreateTicket`; the row is inserted under its id exactly when the answer is 201, otherwise the table is unchanged; the table stays valid |
| `TicketController.TicketStore.List` | backend/src/controllers/ticketController.js:36-49 | returns every row of the table exactly once, ordered by created_at descending, with "No tickets found" for an empty table and "Ticket fetched successfully" otherwise |
| `TicketController.TicketStore.Update` | backend/src/controllers/ticketController.js:51-76 | unknown id gives 404 and no change; otherwise the row becomes `ApplyUpdate` of it when that is well formed (200), else 500 and no change; no other row changes and the set of ids is kept |
| `TicketController.UpdateIdempotent` | backend/src/controllers/ticketController.js:54-70 | applying the same body twice at the same time saves the same row as applying it once |
| `TicketController.InvalidEnumIgnored` | backend/src/controllers/ticketController.js:61-68 | an out-of-enum status and priority leave those fields as they were while a truthy title and description are still applied |
| `TicketController.EmptyTextFieldsKept` | backend/src/controllers/ticketController.js:64-65 | absent or empty title and description leave those fields unchanged |
| `TicketController.UpdateKeepsWellFormed` | backend/src/controllers/ticketController.js:64-70 | from a well-formed row the saved row is well formed exactly when no truthy supplied title or description is one the validators refuse (over 255 characters, or blank); with a clock not behind creation, updated_at >= created_at |
| `TicketController.NewerListedFirst` | backend/src/controllers/ticketController.js:38-40 | in a newest-first listing a ticket created strictly later appears strictly earlier |
| `TicketContext.FromServer` | backend/src/controllers/ticketController.js:44 | the client record of a stored row keeps id, title and description, and its priority and status strings parse back to the row's enum values |
| `TicketContext.InitialState` | frontend/src/context/TicketContext.js:6-11 | no tickets, not loading, no error, no user |
| `TicketContext.ReplaceById` | frontend/src/context/TicketContext.js:26-28 | same length and order; each element with the payload's id becomes the payload, every other element is unchanged |
| `TicketContext.Reduce` | frontend/src/context/TicketContext.js:13-37 | an unknown action returns the state itself; SET_LOADING sets loading to the payload, LOGIN sets the user to the payload, LOGOUT clears it, UPDATE_TICKET replaces the list by `ReplaceById` of it; only SET_TICKETS, ADD_TICKET and UPDATE_TICKET change the list; only LOGIN and LOGOUT change the user; only SET_LOADING, SET_ERROR and SET_TICKETS change loading; only SET_ERROR and SET_TICKETS change the error |
| `TicketContext.AddTicketPrepends` | frontend/src/context/TicketContext.js:21-22 | ADD_TICKET puts the payload at index 0 and shifts the old list by one in order |
| `TicketContext.ReplaceAbsentId` | frontend/src/context/TicketContext.js:23-29 | UPDATE_TICKET with an id not in the list leaves the list unchanged |
| `TicketContext.ReplaceIdempotent` | frontend/src/context/TicketContext.js:23-29 | UPDATE_TICKET twice with one payload equals once |
| `TicketContext.SetTicketsReplaces` | frontend/src/context/TicketContext.js:19-20 | SET_TICKETS replaces the list, clears loading and error and keeps the user |
| `TicketContext.SetErrorKeepsTickets` | frontend/src/context/TicketContext.js:17-18 | SET_ERROR sets the error, clears loading and keeps tickets and user |
| `TicketContext.LoginLogout` | frontend/src/context/TicketContext.js:30-33 | LOGIN then LOGOUT from a logged-out state gives back that state |
| `TicketContext.FetchEndsNotLoading` | frontend/src/context/TicketContext.js:42-50 | the SET_LOADING then SET_TICKETS or SET_ERROR sequence of a fetch ends not loading; a failure keeps the tickets shown |
| `ViewTickets.PriorityColor` | frontend/src/components/Viewticket.js:15-21 | danger exactly for High, warning exactly for Medium, success for anything else |
| `ViewTickets.StatusColor` | frontend/src/components/Viewticket.js:23-30 | secondary exactly for strings outside the status enum; Open primary, In Progress warning, Closed success |
| `ViewTickets.ColoursDistinguishEnumValues` | frontend/src/components/Viewticket.js:15-30 | distinct statuses get distinct colours, and so do distinct priorities |
| `ViewTickets.Lower` | frontend/src/components/Viewticket.js:42 | the result has the same length and no capital letter; every non-capital is kept and every capital becomes its lower-case letter |
| `ViewTickets.LowerIdempotent` | frontend/src/components/Viewticket.js:42 | lower-casing twice equals lower-casing once |
| `ViewTickets.ReplaceFirst` | frontend/src/components/Viewticket.js:42 | replaces exactly the first occurrence of the character and keeps every other one |
| `ViewTickets.StatusKey` | frontend/src/components/Viewticket.js:42 | the key has the status's length, and each enum status string gets its own tab's key |
| `ViewTickets.Shows` | frontend/src/components/Viewticket.js:40-43 | filter "all" shows every ticket; a ticket with an enum status is shown exactly under "all" and its own status tab |
| `ViewTickets.StatusKeyOfEnum` | frontend/src/components/Viewticket.js:42 | "Open", "In Progress" and "Closed" map to the tab keys "open", "in_progress" and "closed" |
| `ViewTickets.Filtered` | frontend/src/components/Viewticket.js:40-43 | keeps exactly the tickets the filter shows; filter "all" keeps the list as it is |
| `ViewTickets.FilteredIsSubsequence` | frontend/src/components/Viewticket.js:40-43 | every filter result is an order-preserving subsequence of the tickets |
| `ViewTickets.CountStatus` | frontend/src/components/Viewticket.js:57-59 | the count is at most the list length and is zero exactly when no ticket has that status |
| `ViewTickets.TicketCounts` | frontend/src/components/Viewticket.js:55-60 | the all count is the number of tickets and bounds the other three |
| `ViewTickets.TabCountsMatchFilters` | frontend/src/components/Viewticket.js:55-60 | with enum statuses, the open, in_progress and closed counts are the lengths of the lists the open, in_progress and closed tabs show |
| `ViewTickets.ServerTicketsInEnum` | backend/src/models/tickets.models.js:31-35 | tickets received from the backend all carry enum statuses |
| `ViewTickets.CountsPartition` | frontend/src/components/Viewticket.js:55-60 | with enum statuses, open + in_progress + closed equals all |
| `ViewTickets.CountMatchesFilter` | frontend/src/components/Viewticket.js:40-59 | with enum statuses, each tab's count equals the length of the list that tab shows |
| `ViewTickets.NextStatus` | frontend/src/components/Viewticket.js:196-227 | a footer button exists exactly for enum statuses: Open leads to In Progress, In Progress to Closed, Closed back to Open |
| `ViewTickets.NextStatusCycles` | frontend/src/components/Viewticket.js:196-227 | three presses return a ticket to its original status |
| `ViewTickets.FooterUpdateMovesOnlyStatus` | frontend/src/components/Viewticket.js:32-38 | the `{status: next}` update the button sends makes the backend change the status to the next one and no other field but updated_at |
| `CreateForm.InitialForm` | frontend/src/components/Createticket.js:6-10 | empty title and description, priority the default Low |
| `CreateForm.HandleChange` | frontend/src/components/Createticket.js:16-21 | the named field takes the new value and the other two are unchanged |
| `CreateForm.TrimStart` | frontend/src/components/Createticket.js:155 | drops exactly the leading white space: a suffix, everything dropped is white space, and it starts with a visible character if any |
| `CreateForm.TrimEnd` | frontend/src/components/Createticket.js:155 | drops exactly the trailing white space, symmetrically |
| `CreateForm.Trim` | frontend/src/components/Createticket.js:155 | trimming never lengthens a string, gives empty exactly for a blank string, and otherwise starts and ends with a non-white-space character |
| `CreateForm.SubmitDisabled` | frontend/src/components/Createticket.js:155 | the button is disabled exactly while submitting or when title or description is blank |
| `CreateForm.SubmitEnabledIff` | frontend/src/components/Createticket.js:155 | submit is enabled exactly when not submitting and title and description each hold a non-white-space character |
| `CreateForm.FinishSubmit` | frontend/src/components/Createticket.js:23-37 | the submitting flag ends false; success resets the form to its initial values and shows the alert; failure keeps the form and the alert flag |
| `CreateForm.PriorityColor` | frontend/src/components/Createticket.js:39-45 | danger exactly for High, warning exactly for Medium, success for anything else |
| `CreateForm.PriorityColorsAgree` | frontend/src/components/Createticket.js:39-45 | the form's priority colour equals the list view's for every string |
| `CreateForm.EnabledSubmitPassesBackendChecks` | frontend/src/components/Createticket.js:155 | a form whose submit is enabled, with a priority from the select, never gets a 400 from create; with a title of at most 255 characters it creates an Open ticket holding what was typed |

## Left out

- Express and Sequelize wiring, the server bootstrap and the routes are I/O plumbing. They are not part of this model.
- The Joi schemas in backend/src/validators/ticket.validator.js are not used by any route. They are not part of this model.
- Storage and connectivity failures, and the generic 500 they produce, are not modelled. The only 500 modelled is the ORM's rejection of an over-long or blank title or a blank description.
- Request-body fields that are neither absent nor strings (numbers, booleans, objects) are not modelled.
- UUID generation and the wall clock are parameters. `TicketStore.Create` requires the generated id to be unused, which a UUIDv4 is assumed to be.
- TicketController.TicketStore.Update: the model refreshes updated_at on every successful save. Whether the ORM skips writing a row whose fields did not change is library behaviour and is not modelled.
- TicketController.TicketStore.List: rows with equal created_at may come back in any order; the model fixes one such order.
- ViewTickets.Lower: `toLowerCase` is modelled for the ASCII letters only. Full Unicode case mapping is not modelled, and it does not matter for the enum status strings.
- The async `fetchTickets`, `createTicket` and `updateTicket` wrappers and the API client are network calls. Only the reducer actions they dispatch are modelled.
- `formatDate` (locale-dependent date formatting), the success alert's timer, console logging, JSX rendering, `Login.js`, `Navbar.js` and `App.js` are UI and are not modelled.
