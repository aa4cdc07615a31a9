# Ticket checks of TheScene, modelled in Dafny

This project models the decision logic in the ticketing screens of the
party app: the host's door scanner, the host's sales dashboard, the ticket
holder's "My Tickets" screen and the app's route guard. Every database
read becomes an input (a list of rows or a map from ticket id to row).
Each piece of logic becomes a function or a small class, and lemmas state
what the screens promise.

- `DoorScan` (`app/host-dashboard.tsx`, `handleBarCodeScanned`): the fixed-order
  chain from scanned text to one outcome. The outcomes are invalid format,
  missing ticket id, wrong party, not found, payment incomplete, fully used,
  or `Proceed` to the server-side check-in. `DoorScanner` is a class holding
  the `scanLock` re-entrancy flag, the `scanning` flag, the shown result and
  the party chosen for scanning. Its `HandleScan` method runs the checks
  step by step with early returns, and is proved equal to the pure `Validate`.
- `TicketToken`: the QR text. The encoder is `JSON.stringify` of
  `{ticketId, partyId, userId}` with that key order and JSON string escaping
  (RFC 8259, sections 4 and 7). The decoder is `JSON.parse` for objects
  whose member values are strings, followed by the scanner's lookup of the
  same three keys. Duplicate keys resolve to the last one, as in `JSON.parse`.
- `HostSales` (`fetchHostData`, `renderPartiesTab`): per-party totals over
  active tiers, dashboard totals, the upcoming/past lists and the automatic
  choice of the party to scan for. Money is an integer amount and dates are
  integer timestamps.
- `Schedule`: the upcoming/past filter both screens use.
- `MyTickets`: the QR text of a card, the ATTENDED / FULLY USED / VALID
  TICKET badge, the usage colour, the tabs, the single expanded card and the
  12-hour clock `formatTime`.
- `RootLayout` (`app/_layout.tsx`) and `IndexScreen` (`app/index.tsx`): the
  redirect rules, the render gate and the store calls made when the user changes.
- `Decimal`: decimal text of integers, used by the messages and the clock.
- `JsValues`: JavaScript truthiness and `String()` for a value that is a string or absent, shared by the scanner and the dashboard.

Three facts about the code shape the model:

- The scanner compares the party id carried in the QR text with the selected
  party. It never compares against the party stored on the ticket row, so
  `TicketRow` has no party column.
- Capacity reservation, purchase, the service fee and the atomic redemption
  increment do not appear in these files. The check-in increment is the
  server-side `check_in_ticket` call, which the model stops before.
- The QR text carries no signature. `DoorScan.UserIdIgnored` shows that the
  `userId` it carries is never checked.

## Model

| member | source | states |
|---|---|---|
| `DoorScan.DoorScanner.HandleScan` | app/host-dashboard.tsx:184-362 | while the lock is set a scan changes nothing; otherwise lock and scanning flag are set and the shown result is exactly the outcome of the check chain on the decoded text |
| `DoorScan.DoorScanner.Unlock` | app/host-dashboard.tsx:356-360 | the delayed `finally` callback clears the scanning flag and releases the lock |
| `DoorScan.DoorScanner.constructor` | app/host-dashboard.tsx:74-82 | the scanner starts unlocked, not scanning, with no result and no party selected |
| `DoorScan.DoorScanner.SelectParty` | app/host-dashboard.tsx:544 | picking a party in the dropdown makes it the party scanned for |
| `DoorScan.DoorScanner.AutoSelect` | app/host-dashboard.tsx:164-170 | loading the host's data updates the selection by the auto-selection rule |
| `DoorScan.EarlyRejections` | app/host-dashboard.tsx:193-220 | text that is not an object of string members gives invalid format; a parsed text with absent or empty ticket id gives missing ticket id; neither depends on the selected party or on the ticket table |
| `DoorScan.PartyCheck` | app/host-dashboard.tsx:223-257 | with a party selected, a `String(partyId)` that differs from it is rejected as the wrong party whatever the ticket table holds; with none selected the outcome is never wrong party and ignores the token's party |
| `DoorScan.TicketChecks` | app/host-dashboard.tsx:275-326 | an unknown id gives not found; an unpaid ticket gives payment incomplete whatever its usage; a paid ticket with used at least purchased gives fully used with the purchased count |
| `DoorScan.ProceedExactly` | app/host-dashboard.tsx:318-341 | the check-in call is reached for an id if and only if every earlier check passes for that id |
| `DoorScan.UserIdIgnored` | app/host-dashboard.tsx:207-213 | the `userId` member of the token does not affect the outcome |
| `DoorScan.ScanIssuedToken` | app/host-dashboard.tsx:207-341 | a holder's encoded QR text for a paid ticket proceeds unless every entry is used, when scanned with no party or its own party selected, and is rejected as the wrong party otherwise |
| `DoorScan.MessagesDistinguishKinds` | app/host-dashboard.tsx:199-325 | rejections of different kinds are shown with different messages, whatever the party titles are |
| `TicketToken.DecodeEncode` | app/my-tickets.tsx:217-221 | decoding the QR text gives back exactly the ticket id, the party id and the user id, and no user id when signed out |
| `TicketToken.ObjectParses` | app/my-tickets.tsx:217-221 | the object text written for any list of string members parses back to that list, in order |
| `TicketToken.QuoteParses` | app/my-tickets.tsx:217-221 | every string, including quotation marks, backslashes and control characters, reads back unchanged from its escaped literal, and reading resumes right after the closing quote |
| `TicketToken.ParseStringBody` | app/host-dashboard.tsx:195 | a successful string parse always consumes input |
| `TicketToken.Lookup` | app/host-dashboard.tsx:195-207 | a key is found if and only if some member has that key, and the value found is that of the last member with the key |
| `HostSales.PartiesWithTiers` | app/host-dashboard.tsx:103-128 | every party, in order, carries the totals of its own tiers |
| `HostSales.ReduceIsSum` | app/host-dashboard.tsx:111-119 | the `reduce` fold from an initial sum equals that sum plus the total of the values |
| `HostSales.PartyTotals` | app/host-dashboard.tsx:105-126 | total tickets, total sold (null counted as 0) and revenue are the sums of quantity, sold and price times sold over the party's active tiers; all three are 0 without active tiers |
| `HostSales.OtherTiersIgnored` | app/host-dashboard.tsx:105-109 | an inactive tier, or a tier of another party, does not change a party's totals |
| `HostSales.PartyWithinCapacity` | app/host-dashboard.tsx:111-119 | if every tier's sold count is within its capacity and prices are non-negative, the party's total sold is between 0 and its total tickets and its revenue is non-negative |
| `HostSales.AnalyticsTotals` | app/host-dashboard.tsx:133-162 | dashboard revenue and tickets sold are the sums of the per-party totals, the party count is the number of parties, and upcoming plus past parties make up that count |
| `HostSales.DashboardWithinCapacity` | app/host-dashboard.tsx:133-140 | over well-formed tier rows, the dashboard's tickets sold never exceed the capacity of all active tiers, and its revenue is non-negative |
| `HostSales.AutoSelectionRule` | app/host-dashboard.tsx:164-170 | an existing selection is kept; otherwise the first party in list order whose date has not passed is selected, and the selection stays as it was when all parties are past |
| `HostSales.PartiesTabPartitions` | app/host-dashboard.tsx:373-377 | the upcoming and past lists partition the parties, by date not before now and date before now |
| `Schedule.SplitPartitions` | app/host-dashboard.tsx:374-377 | with one clock reading, the two lists partition the input as multisets, with the date conditions as if-and-only-ifs |
| `Schedule.UpcomingHead` | app/host-dashboard.tsx:165-169 | there is no upcoming element exactly when every date has passed; otherwise the first upcoming element is the first element of the list whose date has not passed |
| `Schedule.AsReadKeeps` | app/host-dashboard.tsx:374-377 | as written, each filter lists an element whenever the element passes the filter's own clock reading for it |
| `Schedule.SplitAsWrittenSteady` | app/host-dashboard.tsx:374-377 | when every per-element reading is the same instant, the filters as written give exactly the one-reading split |
| `Schedule.SplitAsWrittenOverlaps` | app/host-dashboard.tsx:374-377 | as written, an element dated at or after its upcoming reading and before its past reading is listed as both upcoming and past |
| `Schedule.SplitAsWrittenCounterexample` | app/my-tickets.tsx:115-120 | one event at time 0, read at 0 by the upcoming filter and at 1 by the past one, is in both lists |
| `Schedule.SplitAsWrittenDrops` | app/host-dashboard.tsx:374-377 | with the clock set back between the readings, an event at time 5 read at 6 and then at 4 is in neither list |
| `MyTickets.QrValueDecodes` | app/my-tickets.tsx:216-221 | the scanner reads back the card's ticket id, its party id and the holder's id |
| `MyTickets.BadgePrecedence` | app/my-tickets.tsx:180-198 | a past event shows ATTENDED whatever its usage, and only a past event does; otherwise FULLY USED exactly when the check-ins figure is red and VALID TICKET exactly when it is green |
| `MyTickets.HolderAndDoorAgree` | app/my-tickets.tsx:259-266 | for a paid ticket scanned for its own party or with no party selected, the door proceeds exactly when the card's usage figure is green and reports every entry used exactly when it is red |
| `MyTickets.TabsPartition` | app/my-tickets.tsx:115-127 | the tabs partition the tickets; the active tab shows exactly the tickets on its side of now; every past-tab card shows ATTENDED and no upcoming-tab card does |
| `MyTickets.CardReadingAsWritten` | app/my-tickets.tsx:115-127 | as written, a ticket whose event starts between its upcoming-filter reading and its card's own reading is on the upcoming tab with the ATTENDED badge |
| `MyTickets.ToggleRule` | app/my-tickets.tsx:126-133 | after a tap, a card is expanded exactly when it was tapped and was not already expanded; tapping the open card collapses it |
| `MyTickets.DisplayHour` | app/my-tickets.tsx:110 | the shown hour is in 1..12 and agrees with the hour modulo 12, so 0 and 12 show as 12 |
| `MyTickets.MinutesPadded` | app/my-tickets.tsx:111 | the minutes are always two characters and read back as the minute |
| `MyTickets.FormatTimeLayout` | app/my-tickets.tsx:105-113 | the text is the unpadded hour, a colon, two minute digits, a space and the suffix, which is PM exactly when the hour is 12 or later |
| `MyTickets.ReadFormatTime` | app/my-tickets.tsx:105-113 | reading the formatted time back gives the original hour and minute |
| `MyTickets.FormatTimeInjective` | app/my-tickets.tsx:105-113 | two different times of day are never formatted alike |
| `RootLayout.RedirectRules` | app/_layout.tsx:33-69 | no redirect before initialisation or while preferences are unknown; signed out, welcome exactly outside the auth group; signed in without preferences, onboarding exactly off the onboarding screen whatever the group; signed in with preferences, feed exactly inside the auth group off onboarding; at most one target and no other redirect |
| `RootLayout.PathSegments` | app/_layout.tsx:54-67 | the router's segments of each path passed to `router.replace` are exactly the segments the guard is then checked against |
| `RootLayout.RedirectSettles` | app/_layout.tsx:51-68 | once on the route the guard chose, the guard issues no further redirect |
| `RootLayout.RenderGate` | app/_layout.tsx:71-74 | nothing renders before initialisation or while a signed-in user's preferences are unknown; a redirecting state always renders, and so does a signed-out initialised one |
| `RootLayout.UserChangeEffects` | app/_layout.tsx:21-30 | signing in fetches that user's profile and preferences; signing out clears the profile and makes preferences unknown, after which the guard issues no redirect |
| `IndexScreen.StartRedirectRule` | app/index.tsx:10-21 | no redirect until initialised; then feed for a signed-in user and welcome otherwise; the target depends only on whether there is a user |
| `IndexScreen.LayoutTakesOver` | app/index.tsx:13-15 | a signed-in user sent to the feed is sent on to onboarding by the layout if they have no preferences, and stays otherwise |
| `Decimal.ParseNatToString` | app/host-dashboard.tsx:322 | the decimal text of a count reads back as that count |
| `Decimal.NatToStringShape` | app/my-tickets.tsx:110-112 | the decimal text is non-empty, all digits, and one character exactly for values below 10 |
| `Decimal.NatToStringInjective` | app/my-tickets.tsx:112 | different numbers have different decimal texts |

## Left out

- The Supabase queries are inputs: the parties list, the tier rows, the ticket table and the party titles. Query errors are not modelled. A failed tier query yields the same zeros as a party without tiers.
- The server-side `check_in_ticket` call, its result and its error path at app/host-dashboard.tsx:335-355 are foreign calls. The model ends in the `Proceed` outcome.
- The `setTimeout` delays in the scan handler are timers. The scanning flag is cleared and the lock released only by `DoorScanner.Unlock`, which stands for the delayed `finally` callback.
- Concurrent scans on several devices are not modelled. The lock guards one screen only.
- `averageRating` at app/host-dashboard.tsx:151-154 is a floating-point division.
- Dates are integer timestamps. Parsing date strings, time zones, `toLocaleDateString` and `formatDate` are left out. `formatTime` takes the hour and the minute as inputs, so an invalid date ("NaN:NaN AM") is not modelled.
- Prices and quantities are integers. JavaScript numbers may be fractional, and floating-point rounding is not modelled.
- TicketToken.Decode: accepts only JSON objects whose member values are strings, and the model reports `InvalidFormat` for every other text. The code parses more. A non-object text such as `123`, `"x"` or `[]` passes `JSON.parse` and destructures to absent members, so the code shows "Invalid QR code - missing ticket ID". The text `null` makes the destructuring throw, so the outer `catch` shows the error's message. An object with non-string members, such as `{"ticketId":"a","n":1}`, runs the whole check chain, with `String()` applied to numeric ids.
- TicketToken.ParseStringBody: rejects `\u` escapes of surrogate code points. Dafny characters are Unicode scalar values, while JavaScript strings are UTF-16. For the same reason, `DoorScan.Prefix8` counts characters where `substring(0, 8)` counts UTF-16 code units.
- The debug query for sample tickets of the party, at app/host-dashboard.tsx:278-294, and all console logging.
- JSX rendering, camera permission, tab switching, the camera's "no scan while a result is shown" gate and the "Ready for Next Scan" button.
- stores/authStore.ts, stores/userStore.ts and stores/preferencesStore.ts are wrappers over the authentication and profile client. The route guard takes the user and `hasPreferences` as inputs. `RootLayout.Apply` gives only the immediate effect of each store call.
- HostSales.AutoSelection: takes the current selection as an input. It does not model that the effect's `fetchHostData` captures the selection of the first render.
- Capacity reservation, purchase, the fee computation and the atomic redemption increment are not in these files.

## Findings

| source | as written | input that shows it | evidently intended | confidence | as-written member | corrected member |
|---|---|---|---|---|---|---|
| app/host-dashboard.tsx:374-377 | each callback of the upcoming and past filters calls `new Date()` for its own element | a party dated exactly at its upcoming reading, whose past reading is one millisecond later, is listed under both Upcoming and Past; with the clock set back between the readings, it is listed under neither | both filters use one clock reading, so the lists partition the parties | low; not executed | `Schedule.SplitAsWrittenOverlaps` | `Schedule.SplitPartitions` |
| app/my-tickets.tsx:115-127 | `upcomingTickets`, `pastTickets` and each card's `isPast` call `new Date()` separately | a ticket whose event starts exactly at its upcoming reading, with the later readings one millisecond on, is counted on both tabs and its upcoming-tab card shows ATTENDED | the tabs and the badges use one clock reading, so the tabs partition the tickets and only past-tab cards show ATTENDED | low; not executed | `MyTickets.CardReadingAsWritten` | `MyTickets.TabsPartition` |

The rest of the model uses the single-reading `Schedule.SplitAt`. `Schedule.SplitAsWrittenSteady` shows that the code as written agrees with it whenever all readings fall on the same instant.
