# trust-circle2: a Dafny model of the client's decision logic

trust-circle2 is a peer-to-peer rental marketplace written as a React client over
Supabase. Users publish items on a map. Other users see those items coloured by
"handshake level", the trust distance to the owner. A borrower requests a
date range, and the owner confirms or rejects it in an inbox. The shown code
does not compute the handshake level: that is the server function
`get_items_with_handshakes`. It also does not check bookings for overlap. What
the client does decide is modelled here:

- which days of an item are shown as booked;
- what a rental costs;
- which colour and level a marker shows;
- when an item may be published and a booking requested, and what gets inserted;
- what the trust-circle search sends and what it may return;
- how the friend list is built;
- which bookings appear in an owner's inbox;
- which labels and buttons a booking card gets;
- what updating a booking's status does to the table.

Layout, one module per file:

- `common.dfy` (`Common`): `Option` and the sequence steps the queries are made
  of: `Filter`, `MapSeq`, `DropNulls` (the `.filter(p => p !== null)` step) and
  `Take` (the `.limit(n)` step). `Filter`, `MapSeq` and `DropNulls` come with
  lemmas on order, membership and concatenation; `Take` is stated by its own
  contract.
- `text.dfy` (`Text`): JavaScript's `String.prototype.trim` over the ECMAScript
  whitespace and line-terminator code points, JavaScript's `length` in UTF-16
  code units, and `ILIKE '%q%'` as a substring test after ASCII case folding.
- `store.dfy` (`Store`): the rows of `profiles`, `social_graph`, `items` and
  `bookings`. A `Db` object holds the four tables as sequences, and its methods
  are the inserts and the status update. `WithStatus` is the table after
  `update({status}).eq('id', …)`.
- `queries.dfy` (`Queries`): every `select` of the core as the filter or join
  it expresses.
- `map_section.dfy` (`MapSection`): the marker colour, the blocked-date
  expansion (a `for` over the bookings around a `while` over the days, as in the
  source), the quote, the guards, the owner gate, and class `MapView`. `MapView`
  mirrors the component's `useState` fields, and its handlers are methods.
- `dashboard_page.dfy` (`DashboardPage`) and `dashboard.dfy` (`Dashboard`): the
  routed dashboard page and its unrouted twin. The page's search guard trims the
  query. The twin's guard does not, and it also lists the user's items and
  bookings.
- `profile_page.dfy` (`ProfilePage`): the inbox, the two status-to-label
  mappings, and class `ProfileView` with `fetchUserData` and
  `updateBookingStatus`.
- `scenarios.dfy` (`Scenarios`): two client methods. In the first, two
  borrowers book overlapping days of one item, both requests are stored, and
  the shared day is blocked twice. In the second, the owner confirms a request,
  and its card then shows the confirmed badge with no buttons. A second update
  of the same row is still not refused.

Modelling conventions:

- A calendar date is an integer day number, and a price is an integer.
- `status` is the table's free text, so the "any other value" branches of the
  labels are real cases here.
- A Supabase call's outcome is a parameter: a `bool` for "no error", or a
  `Response` with nullable data for the item RPC. A failed call writes nothing,
  and a null `data` reads as the empty list wherever the code writes `|| []`.
- Some handlers set `loading`, await a lookup, then clear `loading`. Each of
  these is split at the `await` into two methods: one that issues the lookup
  and one that receives its rows. The intermediate state is therefore visible
  to a caller.
- Rows come back in table order, and inserts append.

The client enforces few rules of its own. A store that guarded its data would
need checks that this code does not make:

- No self-edges and no duplicate trust edges. `addFriend` inserts
  `(user, friendId, 1)` without any check.
- A start no later than the end, and no overlap with an active booking of the
  same item. `handleBooking` inserts a `pending` row as soon as both dates are
  picked.
- A decision only by the item's owner, only on a pending request, and only
  once. `updateBookingStatus` sets the status of every row with the id, whoever
  calls it and whatever the status was. `WithStatusLastWins` shows that a
  second update overrides the first. The inbox offers the confirm and cancel
  buttons only while a request is `pending`, and that gate is its only guard. A
  second decision therefore arrives only from a click made before the refetch
  returns, or from a call outside the inbox.
- A minimum search length of 3, applied to the text that is sent.
  The routed page measures the trimmed query, then sends the untrimmed text.
  The twin measures the untrimmed text and, when the query is too short, keeps
  its old results. Both measure in UTF-16 code units, as JavaScript's `length`
  does, so one emoji counts as two.

## Model

| member | source | states |
|---|---|---|
| `MapSection.MarkerColour` | src/components/MapSection.tsx:31-33 | level 1 gives green, 2 orange, 3 red, and any level ≤ 0 or > 3 gives blue; each colour occurs for exactly those levels |
| `MapSection.ShownLevel` | src/components/MapSection.tsx:184-194 | `handshake_level \|\| 0`: a missing level is shown as 0 and a present one as itself |
| `MapSection.MissingLevelShownAsZero` | src/components/MapSection.tsx:184-194 | an item with no handshake level shows level 0 and a blue marker; the draft marker `getHandshakeIcon(0)` is blue too |
| `MapSection.Days` | src/components/MapSection.tsx:76-79 | the walk from start to end yields end − start + 1 days, the k-th being start + k, and none when start > end |
| `MapSection.DaysMembership` | src/components/MapSection.tsx:76 | a day is in a booking's walk iff start ≤ day ≤ end, both ends inclusive |
| `MapSection.DaysAscending` | src/components/MapSection.tsx:77-78 | the days of one booking are pushed in strictly ascending order |
| `MapSection.DaysCount` | src/components/MapSection.tsx:76-79 | one booking pushes each of its days exactly once |
| `MapSection.Expansion` | src/components/MapSection.tsx:72-80 | the blocked-date list of a fetch, defined booking by booking; its length, membership and multiplicity are given by the `Expansion…` lemmas below |
| `MapSection.ExpansionAppend` | src/components/MapSection.tsx:73 | the list for a fetch is the lists of its bookings concatenated in fetch order |
| `MapSection.ExpansionLength` | src/components/MapSection.tsx:72-80 | the list has exactly the sum over the bookings of end − start + 1 (or 0) entries |
| `MapSection.ExpansionMembership` | src/components/MapSection.tsx:72-80 | a day is in the list iff some fetched booking covers it |
| `MapSection.ExpansionCount` | src/components/MapSection.tsx:72-80 | a day occurs as many times as there are fetched bookings covering it: overlaps are not merged |
| `MapSection.SharedDayBlockedTwice` | src/components/MapSection.tsx:72-80 | two confirmed or pending bookings of one item that share a day list that day twice |
| `MapSection.BlockedDates` | src/components/MapSection.tsx:65-81 | the dates excluded for a selected item: the expansion of its confirmed and pending bookings |
| `MapSection.BlockedDatesMembership` | src/components/MapSection.tsx:65-81 | a day is blocked for an item iff a confirmed or pending booking of that item covers it |
| `MapSection.InactiveBlocksNothing` | src/components/MapSection.tsx:69-70 | adding a cancelled booking, or a booking of another item, leaves the blocked list unchanged |
| `MapSection.ActiveBlocksItsDays` | src/components/MapSection.tsx:69-80 | adding an active booking of the item appends exactly its days to the blocked list |
| `MapSection.ExpandBookings` | src/components/MapSection.tsx:72-80 | the `forEach`/`while` loop builds exactly the expansion of the fetched bookings; the inner loop terminates because `current` moves one day towards `last` |
| `MapSection.Quote` | src/components/MapSection.tsx:113-117 | 0 when a date is missing; otherwise the number of days from the earlier date to the later, both counted, times the daily price |
| `MapSection.QuoteSymmetric` | src/components/MapSection.tsx:115 | swapping start and end leaves the total unchanged (the absolute difference) |
| `MapSection.QuoteSameDay` | src/components/MapSection.tsx:115-116 | a same-day rental costs one day's price |
| `MapSection.QuoteThreeDays` | src/components/MapSection.tsx:115-116 | the 1st to the 3rd at 100 per day comes to 300 |
| `MapSection.QuoteMatchesBlockedDays` | src/components/MapSection.tsx:113-117 | the quote for a valid range is the price times the number of days that booking would block |
| `MapSection.CanPublish` | src/components/MapSection.tsx:85 | publishing proceeds iff a spot is chosen and the title has a non-whitespace character |
| `MapSection.CanRequestBooking` | src/components/MapSection.tsx:98 | a booking request proceeds iff both a start and an end date are picked, in any order |
| `MapSection.Footer` | src/components/MapSection.tsx:205-232 | the date pickers and the booking button appear iff the viewer is not the item's owner; otherwise the own-listing notice appears |
| `MapSection.MapView.constructor` | src/components/MapSection.tsx:44-53 | no items, not adding, no spot, no booked dates, empty title, price 500, start today, no end |
| `MapSection.MapView.FetchItems` | src/components/MapSection.tsx:59-63 | on success the markers become the returned rows (none for null data); on error they stay |
| `MapSection.MapView.ToggleAddingMode` | src/components/MapSection.tsx:136 | adding mode flips and the chosen spot is forgotten |
| `MapSection.MapView.ClickMap` | src/components/MapSection.tsx:121 | a map click picks the spot only in adding mode |
| `MapSection.MapView.EditTitle` | src/components/MapSection.tsx:157 | the title field takes the typed text |
| `MapSection.MapView.EditPrice` | src/components/MapSection.tsx:159 | the price field takes the entered amount |
| `MapSection.MapView.PickStart` | src/components/MapSection.tsx:212 | the start date becomes the picked date or none |
| `MapSection.MapView.PickEnd` | src/components/MapSection.tsx:222 | the end date becomes the picked date or none |
| `MapSection.MapView.SelectMarker` | src/components/MapSection.tsx:186 | after a marker click the booked dates are the item's blocked dates, or none if the query failed |
| `MapSection.MapView.HandleAddItem` | src/components/MapSection.tsx:84-95 | with no spot or a blank title, or a failed insert, nothing changes; otherwise the item is inserted with the trimmed title, caller as owner, chosen spot and current price; the spot and title are cleared, adding mode ends, and the markers are refetched; the other tables are untouched |
| `MapSection.MapView.HandleBooking` | src/components/MapSection.tsx:97-111 | without both dates, or on a failed insert, nothing changes; otherwise a `pending` booking by the caller for exactly the picked days is appended, with no order, overlap or owner check; the end date is cleared and the markers are refetched |
| `MapSection.MapView.CalculateTotal` | src/components/MapSection.tsx:113-117 | over the picked dates: 0 if one is missing, else (\|end − start\| + 1) × price per day |
| `Text.Trim` | src/components/MapSection.tsx:85 | `trim()` is empty iff the string is all whitespace; otherwise it is the infix from the first to the last non-whitespace character |
| `Text.Utf16Length` | src/pages/DashboardPage.tsx:40 | JavaScript's `length`: one code unit per character, two for a character above U+FFFF, so between \|s\| and 2·\|s\|, equal to \|s\| iff no such character occurs |
| `Text.Utf16LengthAppend` | src/pages/DashboardPage.tsx:40 | the code-unit length of a concatenation is the sum of the lengths |
| `Text.TrimShortens` | src/pages/DashboardPage.tsx:40 | trimming never increases the code-unit length |
| `Text.ILikeContains` | src/pages/DashboardPage.tsx:49 | `full_name ILIKE '%q%'`: the ASCII-folded query occurs inside the ASCII-folded name |
| `Text.IsInfixAt` | src/pages/DashboardPage.tsx:49 | the `%q%` match holds iff the folded query occurs at some position of the folded name |
| `Common.MapSeq` | src/pages/DashboardPage.tsx:32 | `.map(item => item.profile)`: one result per row, in order, the i-th being the function applied to the i-th row |
| `Common.DropNulls` | src/pages/DashboardPage.tsx:32-34 | the kept values are exactly the present entries, never more than the rows |
| `Common.DropNullsAppend` | src/pages/DashboardPage.tsx:32-34 | dropping nulls commutes with concatenation, so the order of the rows is kept |
| `Common.Take` | src/pages/DashboardPage.tsx:51 | `.limit(n)` keeps the first min(n, count) rows |
| `Store.Decision.Status` | src/pages/ProfilePage.tsx:55 | the confirm button writes `confirmed` and the cancel button writes `cancelled` |
| `Store.WithStatus` | src/pages/ProfilePage.tsx:56-59 | after the update, every row with the id carries the new status and all other fields of every row are as before |
| `Store.WithStatusOnlyTarget` | src/pages/ProfilePage.tsx:59 | rows with other ids survive unchanged; with no row of that id the table is unchanged |
| `Store.WithStatusSetsTarget` | src/pages/ProfilePage.tsx:56-59 | the target row's new status is the chosen one whatever it was before, and only its status differs |
| `Store.WithStatusLastWins` | src/pages/ProfilePage.tsx:55-66 | a second update of the same booking overrides the first: the update itself makes no transition check, and the client's only guard is the pending-only button gate |
| `Store.Db.InsertEdge` | src/pages/DashboardPage.tsx:58-62 | `social_graph` gains exactly the given row at its end and the other tables stay |
| `Store.Db.InsertItem` | src/components/MapSection.tsx:86-88 | `items` gains exactly the given row and the other tables stay |
| `Store.Db.InsertBooking` | src/components/MapSection.tsx:99-105 | `bookings` gains exactly the given row and the other tables stay |
| `Store.Db.UpdateStatus` | src/pages/ProfilePage.tsx:56-59 | `bookings` becomes `WithStatus` of its old rows and the other tables stay |
| `Queries.ItemById` | src/pages/ProfilePage.tsx:43 | the joined item is a row with that id, and there is none iff no row has that id |
| `Queries.ProfileById` | src/pages/DashboardPage.tsx:27 | the joined profile is a row with that id, and there is none iff no row has that id |
| `Queries.OwnedItems` | src/pages/ProfilePage.tsx:20-23 | exactly the items whose owner is the user, in table order |
| `Queries.BorrowedRows` | src/pages/ProfilePage.tsx:26-35 | exactly the bookings whose borrower is the user, in table order |
| `Queries.MyBookings` | src/pages/ProfilePage.tsx:26-35 | one entry per borrowed booking, in order, each joined with its item (or none) |
| `Queries.IncomingRows` | src/pages/ProfilePage.tsx:39-47 | exactly the bookings whose item exists and is owned by the user and whose borrower is not the user, in table order |
| `Queries.IncomingRequests` | src/pages/ProfilePage.tsx:39-47 | one request per incoming booking, in order, each with its (present, user-owned) item and the borrower's profile |
| `Queries.IsActive` | src/components/MapSection.tsx:70 | the statuses that block dates: exactly `confirmed` and `pending` |
| `Queries.ActiveBookings` | src/components/MapSection.tsx:66-70 | exactly the bookings of the item whose status is `confirmed` or `pending`, in table order |
| `Queries.MatchesSearch` | src/pages/DashboardPage.tsx:49-50 | a profile matches iff its name is not null, contains the query by `ILIKE`, and its id is not the user's |
| `Queries.RunSearch` | src/pages/DashboardPage.tsx:46-51 | at most five profiles, each a profile whose name matches the pattern and whose id is not the user's; all matches when there are at most five |
| `Queries.Friends` | src/pages/DashboardPage.tsx:23-35 | the circle is no longer than the user's edges, and a profile is in it iff some edge from the user leads to it |
| `Queries.FriendsAppend` | src/pages/DashboardPage.tsx:32-34 | the circle of concatenated edge lists is the concatenation of their circles: edge order is kept |
| `Queries.FriendsAfterInsert` | src/pages/DashboardPage.tsx:57-65 | a new edge from the user appends its target's profile, if one exists, at the end of the circle |
| `DashboardPage.SearchAllowed` | src/pages/DashboardPage.tsx:40 | the query is sent iff its trimmed UTF-16 length is at least 3 |
| `DashboardPage.PaddedShortQueryRefused` | src/pages/DashboardPage.tsx:40 | "  ab  " and "ab" are refused after trimming, "abc" is accepted |
| `DashboardPage.AstralCharacterCountsTwice` | src/pages/DashboardPage.tsx:40 | one emoji and one letter have length 3 and are sent |
| `DashboardPage.TrustPanel.constructor` | src/pages/DashboardPage.tsx:13-16 | empty query, results and friends, not loading |
| `DashboardPage.TrustPanel.EditQuery` | src/pages/DashboardPage.tsx:98 | the query takes the typed text |
| `DashboardPage.TrustPanel.FetchFriends` | src/pages/DashboardPage.tsx:23-37 | with data the friends become the user's circle; without, they stay |
| `DashboardPage.TrustPanel.HandleSearch` | src/pages/DashboardPage.tsx:39-45 | a query whose trimmed UTF-16 length is under 3 empties the results and sends nothing; otherwise `loading` is set and the untrimmed query is sent, with the user excluded and a limit of 5 |
| `DashboardPage.TrustPanel.ReceiveSearch` | src/pages/DashboardPage.tsx:46-54 | the results become the lookup's rows (none on failure) and `loading` is cleared |
| `DashboardPage.TrustPanel.AddFriend` | src/pages/DashboardPage.tsx:57-69 | on a failed insert nothing changes; otherwise the edge (user, friend, 1) is appended, results and query are cleared, and a successful refetch gives the old circle plus the friend's profile |
| `Dashboard.SearchAllowed` | src/components/Dashboard.tsx:75 | the query is sent iff its untrimmed UTF-16 length is at least 3 |
| `Dashboard.TrimmedGuardIsStricter` | src/components/Dashboard.tsx:75 | every query the routed page lets through, the untrimmed guard lets through too |
| `Dashboard.GuardsDifferOnPadding` | src/components/Dashboard.tsx:75 | "  ab" is sent by this component and refused by the routed page |
| `Dashboard.AstralQuerySentByBoth` | src/components/Dashboard.tsx:75 | one emoji and one letter are sent by this component and by the routed page |
| `Dashboard.DashboardView.constructor` | src/components/Dashboard.tsx:14-22 | everything empty, not loading |
| `Dashboard.DashboardView.EditQuery` | src/components/Dashboard.tsx:138 | the query takes the typed text |
| `Dashboard.DashboardView.FetchUserData` | src/components/Dashboard.tsx:31-52 | my items are the items I own, and my bookings are those I borrow, joined with their items; a failed query gives an empty list |
| `Dashboard.DashboardView.FetchFriends` | src/components/Dashboard.tsx:54-72 | with data the friends become the user's circle; without, they stay |
| `Dashboard.DashboardView.HandleSearch` | src/components/Dashboard.tsx:74-76 | a query whose untrimmed UTF-16 length is under 3 changes neither results nor `loading`; otherwise `loading` is set and the query is sent, excluding the user, with a limit of 5 |
| `Dashboard.DashboardView.ReceiveSearch` | src/components/Dashboard.tsx:77-85 | the results become the lookup's rows (none on failure) and `loading` is cleared |
| `Dashboard.DashboardView.AddFriend` | src/components/Dashboard.tsx:87-98 | on a failed insert nothing changes; otherwise the edge (user, friend, 1) is appended and results and query are cleared |
| `ProfilePage.RequestFooterFor` | src/pages/ProfilePage.tsx:117-139 | the decision buttons appear iff the status is `pending`; otherwise the badge reads "Подтверждено" iff the status is `confirmed` and "Отклонено" for any other status |
| `ProfilePage.BookingBadge` | src/pages/ProfilePage.tsx:188-193 | `confirmed` gives "Активно", `cancelled` gives "Отклонено", and every other value gives "Ожидание"; each label occurs for exactly those statuses |
| `ProfilePage.BadgesOnUnknownStatus` | src/pages/ProfilePage.tsx:132-193 | for an unknown status the owner sees "Отклонено" and the borrower "Ожидание"; both show "Отклонено" for `cancelled` |
| `ProfilePage.ProfileView.constructor` | src/pages/ProfilePage.tsx:6-9 | empty lists, loading |
| `ProfilePage.ProfileView.BeginFetch` | src/pages/ProfilePage.tsx:16-17 | the page is loading while its three queries run |
| `ProfilePage.ProfileView.FinishFetch` | src/pages/ProfilePage.tsx:19-52 | my items, my bookings and incoming requests are set from their queries (empty on failure), and only then is `loading` cleared |
| `ProfilePage.ProfileView.UpdateBookingStatus` | src/pages/ProfilePage.tsx:55-66 | on success exactly the rows with the id get the decision's status, with no check of caller or current status, and a refetch starts; on error nothing changes |

## Left out

- Supabase transport: request ordering, latency, retries and concurrent handlers are not modelled. Each call is atomic, and its outcome is a parameter.
- The `get_items_with_handshakes` function computes handshake levels and owner names on the server. It is not part of this model, and its rows are a parameter of `FetchItems`.
- Overlap prevention between bookings is absent from the client code; the blocked dates are only a hint to the date pickers. The pickers themselves, and which dates they let a user choose, are not modelled.
- JavaScript `Date` is replaced by day numbers. This drops `setDate`, the millisecond difference with `Math.ceil`, `toISOString().split('T')[0]`, time zones and daylight-saving skew.
- `parseFloat(price)` and the price input's text are replaced by an integer price field. NaN and fractional prices are out.
- MapSection.MarkerColour: the level is an integer. A fractional level in (0, 3] would index the colour list at a fractional position in the source.
- Text.ILikeContains: `ILIKE` is modelled as a literal substring test with ASCII-only case folding, and so is `Queries.MatchesSearch`, which uses it. `%` and `_` in the query are not treated as wildcards, PostgreSQL's default `\` escape in the pattern is not modelled, and neither is Unicode case folding.
- Queries.RunSearch: no select of the core has an `order` clause, so the server returns rows in no specified order. The model assumes table order for every select. This affects the "in table order" claims of `Queries.OwnedItems`, `Queries.BorrowedRows`, `Queries.MyBookings`, `Queries.IncomingRows`, `Queries.IncomingRequests` and `Queries.ActiveBookings`, the "at the end of the circle" of `Queries.FriendsAfterInsert`, and the "old circle plus the friend's profile" of `DashboardPage.TrustPanel.AddFriend`. `Queries.RunSearch` returns the first matches in table order, where the server may return any five.
- Geolocation, `userCoords`, Leaflet icons and clustering, `alert`, `console.error`, the unused hex colour list, the `activeTab` switch, and all markup are not modelled. This includes the display fallbacks (`owner_full_name || 'Участник'`, `full_name || email`) and the loading spinner.
- `calculateTotal` is modelled although the rendered markup never calls it.
- `src/components/Navbar.tsx` and `src/App.tsx` are routing and session plumbing, and are not part of this model.
