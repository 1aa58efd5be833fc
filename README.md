# Event check-in client: a verified model of its list, scanner and request logic

The modelled program is a mobile client for event check-in. It shows a paginated,
searchable attendee roster, checks an attendee in from the roster with an
optimistic update, and checks attendees in by scanning a badge's QR code. This
project models the three pieces of that client that hold logic, and proves what
they promise:

- `AttendeeList` (attendee_list.dfy) is the roster screen's controller. It is a
  class whose fields are the screen's state: `data`, `page`, `total`, `loading`,
  `refreshing`, `error` and `search`. Its methods are the state changes. `load(reset)`
  is split at its `await` into `BeginLoad` and `FinishLoad`, and `Load` runs both.
  The other methods are `onRefresh`, the end-of-list guard, the effects that run
  on a new page or a new search term, and `handleCheckin`. The pure list transforms
  behind them are functions: `find`, the per-id `map` used for the optimistic
  update and for its rollback, and `canLoadMore`.
- `Scanner` (scanner.dfy) is the scanner screen. A class holds the `canScanRef`
  gate, the check-in being awaited and the re-arm timer. Its methods are the scan
  up to the request, the arrival of the answer, and the timer firing. A pure
  classifier states the outcome of a whole scan.
- `Requests` (requests.dfy) holds the two request builders of the attendee
  service. `getAttendees` builds a query string by successive `URLSearchParams.set`
  calls; the model includes a parser for that string and proves the round trip.
  `postCheckin` sends the JSON text of `{attendeeId}`; the model includes a reader
  for that JSON text and proves the round trip.
- `Api` (api.dfy) holds the records `AttendeeDTO` and `AttendeesResponse`, the
  check-in answer, and the network result `Ok(body) | HttpError(status) |
  TransportError`. It also defines JavaScript truthiness of the optional
  `checkedInAt`.

The network, the clock, the confirmation dialog, the camera and the timer are
inputs. Each load and each check-in is one step given the answer the server
returned. The optimistic timestamp `new Date().toISOString()` is a non-empty
string parameter. The user's answer to the confirmation dialog is a boolean.
`JSON.parse` of the badge is a function parameter. The form encoding that
`URLSearchParams.toString` applies is a pair of function parameters (`enc`,
`dec`), and the `FormCodec` predicate states what the proofs assume of them.

Two behaviours of the source are modelled as written:

- `load` computes `loading` from the page the screen was on when `load` was
  called, not from the page the reset sets. So every load of a page above 1
  runs with `loading` false, and so does a reset from such a page. The
  end-of-list guard reads that flag, so it can advance the page again while
  an append is still in flight.
- The rollback after a failed check-in clears `checkedInAt` on every attendee
  with that id. The optimistic update marked them all, so a duplicate that
  already carried a server timestamp loses it.

## Model

| member | source | states |
|---|---|---|
| `Api.IsConflict` | screens/AttendeesScreen.tsx:63 | definition: "already checked in" is exactly an HTTP error with status 409, never a success or a failure without a status; `HandleCheckin`, `SubmitOutcome` and `Classify` rely on it |
| `Api.Truthy` | screens/AttendeesScreen.tsx:46 | definition: an optional string is truthy exactly when it is neither missing nor empty; `Present` and `ValidPayload` rely on it |
| `Api.Present` | screens/AttendeesScreen.tsx:77 | definition: an attendee reads as present exactly when `checkedInAt` is neither missing nor empty; `HandleCheckin`, `OptimisticMarksPresent` and `RollbackAfterOptimistic` rely on it |
| `Requests.DecimalText` | services/attendees.ts:7-8 | `String(n)` is non-empty, begins with `-` exactly for negative numbers, and is otherwise digits |
| `Requests.NatText` | services/attendees.ts:7-8 | the decimal text of a number is non-empty, all digits, without a leading zero |
| `Requests.DecimalRoundTrip` | services/attendees.ts:7-8 | `String(page)` and `String(limit)` read back as the numbers sent, negative ones included |
| `Requests.Lookup` | services/attendees.ts:5-8 | a parameter name has a value exactly when it occurs in the list |
| `Requests.RemoveName` | services/attendees.ts:5-8 | dropping a name leaves no pair of that name and every other name's value unchanged |
| `Requests.ReplaceFirst` | services/attendees.ts:5-8 | `set` on a present name leaves exactly one pair of that name, with the new value, other names untouched |
| `Requests.SetParam` | services/attendees.ts:5-8 | `set` leaves exactly one pair of the name with the new value, keeps the others' values, and appends when the name was absent |
| `Requests.LookupAppend` | services/attendees.ts:5-8 | appending a new name makes it readable and hides no other name |
| `Requests.AttendeeParams` | services/attendees.ts:4-8 | the parameters are `search` (present iff non-empty), then `page`, then `limit`, both as decimal text |
| `Requests.Serialize` | services/attendees.ts:9 | the query string is empty exactly when no parameter was set |
| `Requests.SplitOnPlain` | services/attendees.ts:9 | text without the separator is one piece |
| `Requests.SplitOnFirst` | services/attendees.ts:9 | splitting stops at the first separator and continues after it |
| `Requests.CutAtFirst` | services/attendees.ts:9 | a pair splits at its first `=` into name and value |
| `Requests.SplitSerialized` | services/attendees.ts:9 | the serialized query splits on `&` into exactly its encoded pairs |
| `Requests.QueryRoundTrip` | services/attendees.ts:9 | the query string reads back as exactly the pairs set, in order |
| `Requests.GetAttendees` | services/attendees.ts:4-10 | the roster request is a bodiless GET whose path begins with `/events/<eventId>/attendees?` |
| `Requests.GetAttendeesQuery` | services/attendees.ts:4-10 | the query after that prefix reads back as `search` (only if non-empty), `page`, `limit` |
| `Requests.DecimalTextOneTwenty` | services/attendees.ts:4 | the default page and limit print as `1` and `20` |
| `Requests.KeepsUnreserved` | services/attendees.ts:9 | the parameter names and the default values are not altered by form encoding |
| `Requests.GetAttendeesDefaults` | services/attendees.ts:4-10 | with the defaults the path is `/events/<eventId>/attendees?page=1&limit=20` |
| `Requests.EscapeChar` | services/attendees.ts:14 | a character is written as itself unless it is a quote, a backslash or a control character, which become an escape of at most six characters starting with a backslash; no control character is written raw |
| `Requests.Escape` | services/attendees.ts:14 | the escaped text is never shorter than the string and holds no raw control character |
| `Requests.QuoteJson` | services/attendees.ts:14 | `JSON.stringify` of a string is a double-quoted literal whose inside reads back as the string |
| `Requests.ParseFramed` | services/attendees.ts:14 | the body reader takes the text between the fixed head and tail and decodes exactly that |
| `Requests.CheckinBody` | services/attendees.ts:14 | the JSON text of `{attendeeId}` reads back as exactly that request |
| `Requests.UnescapeStep` | services/attendees.ts:14 | each character's JSON escape reads back as that character and consumes nothing more |
| `Requests.UnescapeEscape` | services/attendees.ts:14 | the inside of a JSON string literal written by `JSON.stringify` reads back as the original string |
| `Requests.PostCheckin` | services/attendees.ts:12-16 | the check-in is a POST to `/events/<eventId>/checkin` whose body reads back as exactly `{attendeeId}` |
| `AttendeeList.FirstIndexOf` | screens/AttendeesScreen.tsx:43 | the index found holds the id and no earlier attendee does; none found means no attendee has the id |
| `AttendeeList.FindById` | screens/AttendeesScreen.tsx:43-44 | `find` returns the first attendee of the list with the id, and nothing exactly when no attendee has it |
| `AttendeeList.SetCheckedIn` | screens/AttendeesScreen.tsx:60 | the per-id map keeps length and order, changes only `checkedInAt`, and only on attendees with the id |
| `AttendeeList.OptimisticMarksPresent` | screens/AttendeesScreen.tsx:60 | after the optimistic update every attendee with the id, and the one `find` returns, reads as present |
| `AttendeeList.RollbackAfterOptimistic` | screens/AttendeesScreen.tsx:60-67 | after the rollback the attendees with the id read as absent and every other attendee is as before the check-in |
| `AttendeeList.RollbackRestores` | screens/AttendeesScreen.tsx:60-67 | when the attendees with the id had no timestamp, the rollback restores the list exactly |
| `AttendeeList.AttendeesController.constructor` | screens/AttendeesScreen.tsx:13-20 | the screen starts loading, with no error, empty search, no items, page 1, total 0 |
| `AttendeeList.AttendeesController.CanLoadMore` | screens/AttendeesScreen.tsx:40 | definition: more can be loaded exactly when some attendees remain unfetched, which needs a positive total; `OnEndReached` relies on it |
| `AttendeeList.AttendeesController.BeginLoad` | screens/AttendeesScreen.tsx:22-26 | a reset goes to page 1 and empties the items before fetching; the fetch is for page 1 on a reset, else the current page; `loading` follows the old page |
| `AttendeeList.AttendeesController.FinishLoad` | screens/AttendeesScreen.tsx:27-32 | success sets the total and replaces (reset) or extends the items; failure sets the error and keeps items and total; both end not loading and not refreshing |
| `AttendeeList.AttendeesController.Load` | screens/AttendeesScreen.tsx:22-34 | the whole load: the request sent, and a final state where appended loads keep the old items as a prefix |
| `AttendeeList.AttendeesController.OnRefresh` | screens/AttendeesScreen.tsx:39 | a refresh reloads page 1 of the current search and ends not refreshing |
| `AttendeeList.AttendeesController.OnEndReached` | screens/AttendeesScreen.tsx:153 | the handler, with `canLoadMore` from screens/AttendeesScreen.tsx:40: the page advances by exactly one iff `data.length < total` and the `loading` flag is false, to a page above 1, so the load it causes appends; nothing else changes |
| `AttendeeList.AttendeesController.OnPageChange` | screens/AttendeesScreen.tsx:37 | a new page number loads that page, resetting only when it is page 1 |
| `AttendeeList.AttendeesController.OnSearchChange` | screens/AttendeesScreen.tsx:36 | a new search term fetches page 1 for that term and replaces the items |
| `AttendeeList.AttendeesController.HandleCheckin` | screens/AttendeesScreen.tsx:42-74 | unknown id, present attendee or cancelled dialog: no request, no change; otherwise one request, the mark kept on success or 409 and cleared on any other failure |
| `Scanner.ValidPayload` | screens/ScannerScreen.tsx:23-24 | definition: a badge is usable exactly when it parsed and neither id is missing or empty; `CheckinTarget`, `Classify` and `Scan` rely on it |
| `Scanner.CheckinTarget` | screens/ScannerScreen.tsx:23-33 | only a payload with truthy ids whose event is the active one names an attendee, its own |
| `Scanner.SubmitOutcome` | screens/ScannerScreen.tsx:33-46 | success is OK, 409 is "already present", any other failure is the generic failure |
| `Scanner.Classify` | screens/ScannerScreen.tsx:22-46 | exhaustive outcome: OtherEvent iff valid payload of another event; OK or "already present" only with a target; generic failure for bad payloads and other errors |
| `Scanner.ClassifyWithoutTarget` | screens/ScannerScreen.tsx:23-30 | without a target the answer plays no part and the outcome is OtherEvent or the generic failure |
| `Scanner.ScannerController.constructor` | screens/ScannerScreen.tsx:16 | the gate starts open with nothing pending |
| `Scanner.ScannerController.Scan` | screens/ScannerScreen.tsx:18-33 | a scan at a closed gate changes nothing; an accepted one closes the gate, and either sends one check-in for the payload's attendee or ends with its outcome and the timer set |
| `Scanner.ScannerController.CheckinSettled` | screens/ScannerScreen.tsx:33-49 | the answer gives its outcome and the timer is set on every path |
| `Scanner.ScannerController.CooldownElapsed` | screens/ScannerScreen.tsx:48 | the timer reopens the gate |
| `Scanner.ScannerController.HandleScan` | screens/ScannerScreen.tsx:18-50 | a whole scan: ignored at a closed gate; otherwise the classified outcome, at most one request, and the gate closed with the timer set |

## Left out

- Rendering, styles, navigation, the avatar and subtitle fallbacks and the empty-list message: presentation only.
- The order in which React runs effects, stale closures over `page` and `search`, and overlapping loads: each load is one atomic step. So these double loads are not modelled: the second `load(true)` that follows when a new search term moves the page back to 1; the same second load after a pull-to-refresh or the retry button from a page above 1, through the page effect; and both effects running once each on mount.
- `OnSearchChange` and `OnPageChange`: these model what each effect does when it runs. They do not model when React runs it.
- Haptics, alerts and the confirmation dialog: the outcome enums stand for the alerts, and a boolean stands for the user's choice. A haptics call that fails would be reported as the generic failure; this is not modelled.
- The time shown in "already present since hh:mm": it depends on the locale and the clock. `AlreadyPresentSince` carries the raw timestamp.
- `Requests.GetAttendees`: the query text is stated through the `FormCodec` assumptions on an abstract encoder, not through the exact percent-encoding of `URLSearchParams`.
- `Requests.DecimalText`: does not model JavaScript's exponent notation for numbers of magnitude 1e21 or more, or fractional numbers.
- `Scanner.Scan`: a badge field that is a JSON number, boolean or object rather than a string is not modelled. Fields are optional strings.
- `JSON.parse` is a function parameter. The character set is Unicode scalar values, so `JSON.stringify`'s escaping of lone surrogates does not arise.
- Headers, the base URL, the token and `fetch` in services/client.ts: only the status carried by a failed request is used.
- The camera permission branch (screens/ScannerScreen.tsx:52-64): it shows a waiting message or a button asking for the permission, which is device UX.
- The event summary screen and services/events.ts: no logic beyond fetching and assigning.
- utils/format.ts: it formats dates with `Intl.DateTimeFormat`, whose output depends on the locale and the time zone.
- No `items.length <= total` invariant: the code does not enforce it.
- No generation token for stale responses: the code has none.
