# hedera-shipment-tracker, modelled in Dafny

This project models the logic at the core of the hedera-shipment-tracker web app. The app is a Next.js/React
front end, and its API routes mint shipment NFTs and submit shipment events on the Hedera network. The model
covers these parts:

- the shipment lists: table search, all-shipments search/status/date filters, and dashboard statistics;
- the escrow page's in-memory contract ledger and edit buffer;
- the upload route's retry policy;
- request validation and record building in the mint and submit-event routes, and the environment lookups
  they rely on;
- the guards of the two shipment forms;
- the wallet badge and the wallet connection state machine.

Pure code is written as datatypes, functions and lemmas. React component state is written as classes
whose methods change fields named in `modifies` clauses. The upload retry loop and the grouping `forEach`
are `while` loops in plain methods that update local variables.

The loops (the upload retries, the search-status-date filter chain and the grouping `forEach`) are proved
equal to specification functions. The component handlers state their whole new state, with the page's
invariant where it has one. The properties the app relies on are proved as lemmas about the specification
functions. Some functions that only map inputs case by case (`||` defaults, the status colours and badges,
the message records) carry that mapping as their contract and need no further proof.

Outside inputs become parameters, and no I/O is modelled:
- the clock (`now`);
- the storage client (`put`, one reply per attempt);
- the ledger's receipts;
- the browser extension's replies;
- local storage (a string map);
- the environment (a string map).

Modules, one per source file, plus shared helpers:

- **Wrappers**: `Option` and `Result`.
- **Seqs**: `filter` on sequences, and facts about it: subsequence, multiplicity, filter composition
  and extension.
- **Text**: ASCII `toLowerCase`, `includes`, `trim` with the ECMAScript whitespace set, and the decimal
  rendering of numbers.
- **Json**: truthiness, `||` defaults and `Number()` on the JSON values the routes read.
- **Http**: responses and the `e.message || fallback` rule.
- **ShipmentTypes**, **ShipmentTable**, **AllShipments** and **Dashboard**: the shipment lists.
- **Hedera**, **Upload**, **EventRoute** and **CreateRoute**: the server side.
- **CreateForm**, **CheckForm**, **Address** and **WalletHeaderView**: the components.
- **EscrowRecords**, **EscrowGroups** and **Escrow**: the escrow page.
- **Wallet**: the `useWallet` hook.

Behaviour of the code worth knowing:

- `ShipmentData` and `AllShipmentsResponse` are not declared in `types/shipment.ts`. Their fields come from
  how the dashboard and all-shipments pages use them.
- The all-shipments status filter compares `"all"` case-sensitively, but compares the filter against the
  status case-insensitively. So `"ALL"` filters on a status spelled "all".
- The all-shipments "active filters" flag tests the raw query. A whitespace-only query therefore counts as
  active, yet it filters nothing.

## Model

| member | source | states |
|---|---|---|
| `Seqs.Filter` | src/components/ShipmentTable.tsx:36-50 | `filter` keeps only elements satisfying the predicate and every element that does; the result is no longer than the input |
| `Seqs.FilterIsSubsequence` | src/components/ShipmentTable.tsx:36-37 | a filtered list is a subsequence of its input, in the original order |
| `Seqs.FilterMultiplicity` | src/components/ShipmentTable.tsx:36-50 | each value occurs in the filtered list as often as in the input if it satisfies the predicate, else never |
| `Seqs.FilterFilter` | src/app/dashboard/check-all-shipments/page.tsx:73-124 | two successive filters equal one filter by the conjunction of their predicates |
| `Seqs.FilterSnoc` | src/app/dashboard/escrow/page.tsx:205-212 | filtering a list extended by one element appends that element exactly when it satisfies the predicate |
| `Text.Lower` | src/components/ShipmentTable.tsx:39-44 | ASCII `toLowerCase`: upper-case letters map to lower case, every other character is kept, length is kept |
| `Text.ContainsEmpty` | src/components/ShipmentTable.tsx:39-44 | `includes("")` holds of every string |
| `Text.Contains` | src/components/ShipmentTable.tsx:39-44 | `includes`: the text occurs at some position |
| `Text.ContainsChar` | src/components/ShipmentTable.tsx:39-44 | a one-character string is included exactly when that character occurs |
| `Text.BlankIffAllWhitespace` | src/app/dashboard/check-all-shipments/page.tsx:77 | `trim()` yields "" exactly when every character is ECMAScript whitespace |
| `Text.Trim` | src/app/dashboard/check-all-shipments/page.tsx:77 | `trim`: leading and trailing ECMAScript whitespace removed (stated by the trim and blank lemmas) |
| `Text.BlankLowerIff` | src/app/dashboard/check-all-shipments/page.tsx:77-78 | a string is blank after lower-casing iff it was blank before |
| `Text.DecimalRoundTrip` | src/app/dashboard/escrow/page.tsx:126 | reading the decimal rendering of a number back gives the number |
| `Json.OrElse` | src/app/api/shipment/create/route.ts:26-27 | the `||` default: the value when truthy, the fallback otherwise |
| `Json.Truthy` | src/app/api/shipment/event/route.ts:16 | JavaScript truthiness: undefined, null, false, 0 and "" are falsy, everything else truthy |
| `Json.OrDefault` | src/app/api/shipment/event/route.ts:41-42 | `v ?? fallback`: the value when present, else the fallback |
| `Json.ToNumber` | src/app/api/shipment/event/route.ts:24 | `Number()`: NaN exactly for undefined and for non-blank text outside the numeric syntaxes; null, false and blank text give 0, true gives 1, integers and signed decimal text their value; other numeric syntaxes are kept as text |
| `Json.DigitRun` | src/app/api/shipment/event/route.ts:24 | the maximal run of decimal digits at the start of the text |
| `Json.IsNumericText` | src/app/api/shipment/event/route.ts:24 | the StrNumericLiteral grammar of section 7.1.4.1.1 of ECMA-262 on trimmed text: a signed decimal literal with optional fraction and exponent or "Infinity", or an unsigned binary, octal or hexadecimal literal |
| `Json.SignedDecimalIsNumeric` | src/app/api/shipment/event/route.ts:24 | a signed decimal integer is numeric text |
| `Json.NonNumericIsNaN` | src/app/api/shipment/event/route.ts:24 | trimmed, non-empty text outside the grammar converts to NaN |
| `Json.WordIsNaN` | src/app/api/shipment/event/route.ts:24 | `Number("abc")` is NaN |
| `Json.LoneSignIsNaN` | src/app/api/shipment/event/route.ts:24 | `Number("+")` is NaN |
| `Json.TwoPointsIsNaN` | src/app/api/shipment/event/route.ts:24 | `Number("1.2.3")` is NaN |
| `Json.SignedHexIsNaN` | src/app/api/shipment/event/route.ts:24 | `Number("-0x10")` is NaN: a non-decimal literal takes no sign |
| `Json.OtherSyntaxIsKept` | src/app/api/shipment/event/route.ts:24 | trimmed numeric text that is not a signed decimal integer is kept as text |
| `Json.FractionIsOtherSyntax` | src/app/api/shipment/event/route.ts:24 | "1.5" is numeric text of another syntax |
| `Json.HexIsOtherSyntax` | src/app/api/shipment/event/route.ts:24 | "0x1F" is numeric text of another syntax |
| `Json.DecimalStringConverts` | src/app/api/shipment/event/route.ts:24 | `Number()` of the decimal text of n is n, so "7" becomes 7 |
| `Http.MessageOr` | src/app/api/shipment/create/route.ts:52-55 | the thrown message when present and non-empty, else the fallback |
| `ShipmentTable.MatchesSearch` | src/components/ShipmentTable.tsx:38-44 | the lower-cased term occurs in one of the six lower-cased fields |
| `ShipmentTable.MatchesStatus` | src/components/ShipmentTable.tsx:46 | "ALL", or the status equals the filter exactly |
| `ShipmentTable.FilteredShipments` | src/components/ShipmentTable.tsx:36-50 | every listed shipment is one of the given ones and passes the search and status tests; the list is no longer than the input |
| `ShipmentTable.FilteredIsSubsequence` | src/components/ShipmentTable.tsx:36-37 | the table lists the kept shipments in their original order |
| `ShipmentTable.FilteredMultiplicity` | src/components/ShipmentTable.tsx:38-48 | a shipment is listed (as often as given) iff its status is "ALL"-matched or equal and the lower-cased term occurs in one of the six lower-cased fields |
| `ShipmentTable.EmptySearchShowsAll` | src/components/ShipmentTable.tsx:38-46 | an empty term with "ALL" lists every shipment unchanged |
| `ShipmentTable.SpaceSearchNeedsSpace` | src/components/ShipmentTable.tsx:39-44 | the term is not trimmed: " " keeps exactly the shipments with a space in one of the six fields |
| `ShipmentTable.LowerKeepsSpace` | src/components/ShipmentTable.tsx:39-44 | a lower-cased field contains a space iff the field does |
| `ShipmentTable.SearchIgnoresCase` | src/components/ShipmentTable.tsx:39-44 | terms equal up to letter case give the same list |
| `ShipmentTable.ShownCountAtMostTotal` | src/components/ShipmentTable.tsx:130 | "Showing n of m": n is at most m |
| `ShipmentTable.StatusColor` | src/components/ShipmentTable.tsx:52-65 | blue, yellow, green and red classes for the four enum values, the grey default for any other string |
| `ShipmentTable.StatusColorsDistinct` | src/components/ShipmentTable.tsx:52-65 | the four enum values get four distinct colours, none the default |
| `ShipmentTable.StatusLabel` | src/components/ShipmentTable.tsx:193 | the label has the status's length (its content is stated by the label lemmas below) |
| `ShipmentTable.ReplaceFirst` | src/components/ShipmentTable.tsx:193 | `replace` with a one-character pattern changes only its first occurrence |
| `ShipmentTable.LabelWithoutUnderscore` | src/components/ShipmentTable.tsx:193 | a status without "_" is shown unchanged |
| `ShipmentTable.OtherStatusLabels` | src/components/ShipmentTable.tsx:193 | every enum value but IN_TRANSIT (CREATED, DELIVERED, CANCELLED) is shown as it is |
| `ShipmentTable.InTransitLabel` | src/components/ShipmentTable.tsx:193 | IN_TRANSIT is shown as "IN TRANSIT" |
| `ShipmentTable.ReplaceAtFirst` | src/components/ShipmentTable.tsx:193 | replacing at the first occurrence, stated on slices |
| `ShipmentTable.OnlyFirstUnderscore` | src/components/ShipmentTable.tsx:193 | only the first underscore is replaced: "A_B_C" becomes "A B_C" |
| `AllShipments.FilteredShipments` | src/app/dashboard/check-all-shipments/page.tsx:73-124 | the successive search, status and date filters equal one filter by the conjunction of the three rules |
| `AllShipments.Shown` | src/app/dashboard/check-all-shipments/page.tsx:73-124 | every shown shipment is one of the fetched ones and passes all three rules; the list is no longer than the input |
| `AllShipments.SearchKeeps` | src/app/dashboard/check-all-shipments/page.tsx:76-87 | a blank query keeps everything, otherwise the lower-cased untrimmed query occurs in one of six lower-cased fields |
| `AllShipments.StatusKeeps` | src/app/dashboard/check-all-shipments/page.tsx:90-94 | "all" keeps everything, otherwise the lower-cased status equals the lower-cased filter |
| `AllShipments.DateThreshold` | src/app/dashboard/check-all-shipments/page.tsx:97-121 | the threshold of today, week or month; none for any other value |
| `AllShipments.DateKeeps` | src/app/dashboard/check-all-shipments/page.tsx:97-121 | created at or after the threshold, an unparseable date failing; everything kept without a threshold |
| `AllShipments.ShownIsSubsequence` | src/app/dashboard/check-all-shipments/page.tsx:74-121 | the result is a subsequence of the shipments |
| `AllShipments.ShownIsIntersection` | src/app/dashboard/check-all-shipments/page.tsx:73-124 | a shipment is shown iff the search, status and date rules each keep it |
| `AllShipments.BlankQueryFiltersNothing` | src/app/dashboard/check-all-shipments/page.tsx:77 | a blank or whitespace-only query leaves the list to the other two filters |
| `AllShipments.QueryIsNotTrimmed` | src/app/dashboard/check-all-shipments/page.tsx:77-86 | a non-blank query is matched with its surrounding spaces |
| `AllShipments.QueryIgnoresCase` | src/app/dashboard/check-all-shipments/page.tsx:77-86 | any two queries equal up to letter case keep the same shipments, blank or not |
| `AllShipments.StatusFilterIgnoresCase` | src/app/dashboard/check-all-shipments/page.tsx:90-94 | "all" keeps everything; any other filter keeps a shipment iff the lower-cased status equals the lower-cased filter |
| `AllShipments.DateFilterMeaning` | src/app/dashboard/check-all-shipments/page.tsx:97-121 | today/week/month keep shipments created at or after the threshold and drop unparseable dates; any other value keeps all |
| `AllShipments.HasActiveFilters` | src/app/dashboard/check-all-shipments/page.tsx:132 | a non-empty raw query, or a status or date filter other than "all" (its consequences are the two lemmas below) |
| `AllShipments.BlankSearchKeepsAll` | src/app/dashboard/check-all-shipments/page.tsx:77 | a whitespace-only query with both other filters on "all" shows every shipment |
| `AllShipments.InactiveFiltersShowAll` | src/app/dashboard/check-all-shipments/page.tsx:126-132 | with no active filter the list is the full list |
| `AllShipments.WhitespaceQueryActiveButInert` | src/app/dashboard/check-all-shipments/page.tsx:77-132 | a whitespace query counts as active yet shows the full list |
| `AllShipments.StatusBadge` | src/app/dashboard/check-all-shipments/page.tsx:51-60 | "delivered" gives Delivered, "not delivered" gives In Transit, in any case; any other status is shown verbatim |
| `AllShipments.StatusBadgeExamples` | src/app/dashboard/check-all-shipments/page.tsx:51-60 | "DELIVERED" and "Not Delivered" are mapped; "created" is shown as is |
| `AllShipments.AllShipmentsPage.constructor` | src/app/dashboard/check-all-shipments/page.tsx:16-25 | no shipments, loading, no error or pagination, an empty query, status and date filters "all", the panel closed |
| `AllShipments.AllShipmentsPage.ClearFilters` | src/app/dashboard/check-all-shipments/page.tsx:126-132 | afterwards no filter is active and the visible list is the full list; nothing else changes |
| `AllShipments.AllShipmentsPage.ToggleFilters` | src/app/dashboard/check-all-shipments/page.tsx:182 | the filter panel flag flips, nothing else changes |
| `AllShipments.AllShipmentsPage.FetchAllShipments` | src/app/dashboard/check-all-shipments/page.tsx:31-49 | success stores data and pagination and clears the error; an unsuccessful answer and a throw set their two error texts; loading ends |
| `Dashboard.CountStatus` | src/app/dashboard/page.tsx:54-56 | the number of shipments whose lower-cased status equals the given one, at most the total |
| `Dashboard.ComputeStats` | src/app/dashboard/page.tsx:52-57 | total is the number of shipments; each category counts its lower-cased status |
| `Dashboard.StatsCategoriesBounded` | src/app/dashboard/page.tsx:54-56 | the categories are disjoint, so inTransit + delivered + created is at most total |
| `Dashboard.Recent` | src/app/dashboard/page.tsx:71-72 | `slice(0, n)`: the prefix of length min(n, length) |
| `Dashboard.RecentShipments` | src/app/dashboard/page.tsx:71 | the first five shipments, or all of them when there are fewer |
| `Dashboard.RecentActivity` | src/app/dashboard/page.tsx:72 | the first four shipments, or all of them when there are fewer |
| `Dashboard.RecentActivityPrefixOfRecentShipments` | src/app/dashboard/page.tsx:71-72 | recent activity (4) is a prefix of recent shipments (5) |
| `Dashboard.DashboardPage.constructor` | src/app/dashboard/page.tsx:28-36 | no shipments, loading, network "checking", all counts zero, so the stats already describe the list |
| `Dashboard.DashboardPage.FetchDashboardData` | src/app/dashboard/page.tsx:42-69 | success stores the data, its stats and "connected"; `success` false changes nothing; a throw gives "disconnected"; loading ends |
| `Hedera.GetRequiredEnv` | src/lib/hedera.ts:16-20 | the stored value when present and non-empty; otherwise an error naming the variable |
| `Hedera.MissingEnvNamesVariable` | src/lib/hedera.ts:18 | the error text contains the variable's name |
| `Hedera.GetHederaClient` | src/lib/hedera.ts:3-14 | fails with the fixed message when the operator id or key is missing or empty, else carries both |
| `Upload.StopFrom` | src/app/api/storage/upload/route.ts:22-36 | the first attempt at or after `from` that succeeds or fails with "maintenance", with none before it |
| `Upload.AttemptCount` | src/app/api/storage/upload/route.ts:20-36 | one more than the stopping attempt's index, or 3 if no attempt stops; between 1 and 3 |
| `Upload.DefaultIsNotMaintenance` | src/app/api/storage/upload/route.ts:38-39 | the default message does not read as maintenance |
| `Upload.IsMaintenance` | src/app/api/storage/upload/route.ts:30-32 | the lower-cased message, or "" without one, contains "maintenance" |
| `Upload.RetryResponse` | src/app/api/storage/upload/route.ts:20-51 | the reference outcome of the retries: the first stopping attempt decides 200 or 503, no stopping attempt gives 500 with the last message (its meaning is stated by the lemmas below) |
| `Upload.Post` | src/app/api/storage/upload/route.ts:7-56 | non-blob file gives 400 and no attempt; missing token gives 500; otherwise at most 3 attempts, a wait of 500·(i+1) ms after each non-maintenance failure, and the response of the reference rule |
| `Upload.FirstSuccessWins` | src/app/api/storage/upload/route.ts:26-27 | the first successful attempt answers 200 with its cid and no attempt follows |
| `Upload.MaintenanceStopsRetrying` | src/app/api/storage/upload/route.ts:30-32 | a maintenance failure ends the attempts at once |
| `Upload.StopAt` | src/app/api/storage/upload/route.ts:22-36 | attempts stop at the first stopping attempt |
| `Upload.FailureClassification` | src/app/api/storage/upload/route.ts:38-51 | with no success: 503 with the maintenance code iff the last message contains "maintenance", else 500 with it |
| `Upload.AllAttemptsFail` | src/app/api/storage/upload/route.ts:20-51 | three plain failures make three attempts and a 500 with the last message or the default |
| `Upload.PostStatuses` | src/app/api/storage/upload/route.ts:7-56 | the status is one of 200, 400, 503 and 500 |
| `EventRoute.BuildMessage` | src/app/api/shipment/event/route.ts:22-27 | the message keeps the event type, converts the serial with `Number()`, turns a falsy cid into null, stamps the time |
| `EventRoute.Rejected` | src/app/api/shipment/event/route.ts:16 | a falsy event type, or a serial that is undefined or null (its use is stated by `EventRoute.Post`) |
| `EventRoute.Post` | src/app/api/shipment/event/route.ts:7-50 | 400 iff the event type is falsy or the serial undefined/null; missing topic or operator gives 500; otherwise the exact message is submitted and echoed with status defaulting to "SUCCESS"; a throw gives 500 with its message or the default |
| `EventRoute.SerialZeroAndAnyEventTypeAccepted` | src/app/api/shipment/event/route.ts:11-16 | serial 0 and any non-empty event type pass; null or absent serial and empty type are rejected |
| `EventRoute.BooleanFields` | src/app/api/shipment/event/route.ts:16-24 | event type true passes and false is rejected; boolean serials pass and are sent as 1 and 0 |
| `EventRoute.SerialTextBecomesNumber` | src/app/api/shipment/event/route.ts:24 | a serial sent as decimal text is submitted as its number |
| `EventRoute.NonNumericSerialSubmittedAsNaN` | src/app/api/shipment/event/route.ts:16-24 | a serial of non-numeric text passes the check and is submitted as NaN |
| `CreateRoute.BuildMetadata` | src/app/api/shipment/create/route.ts:24-29 | shipmentId as given, falsy description as "", falsy cid as null, the creation time |
| `CreateRoute.FirstSerial` | src/app/api/shipment/create/route.ts:40-41 | the first serial of the receipt, none for an empty list |
| `CreateRoute.Post` | src/app/api/shipment/create/route.ts:9-56 | 400 iff shipmentId is falsy, before any lookup; missing token or operator gives 500; otherwise the metadata minted is the one returned, with the first serial; a throw gives 500 with its message or "Failed to mint NFT" |
| `CreateRoute.ValidationBeforeConfiguration` | src/app/api/shipment/create/route.ts:18-22 | a missing shipmentId gives the same answer whatever the environment |
| `CreateForm.Set` | src/components/CreateShipmentForm.tsx:26-33 | the named field takes the value, the other six are unchanged |
| `CreateForm.FormValidIff` | src/components/CreateShipmentForm.tsx:40 | the form is valid iff no field is blank after trimming |
| `CreateForm.IsFormValid` | src/components/CreateShipmentForm.tsx:40 | every value of the record is non-blank after trimming (stated per field by `CreateForm.FormValidIff`) |
| `CreateForm.BlankFieldInvalid` | src/components/CreateShipmentForm.tsx:40 | a form with any blank (empty or whitespace-only) field is invalid |
| `CreateForm.InitialInvalid` | src/components/CreateShipmentForm.tsx:16-40 | the initial form of seven empty fields is invalid |
| `CreateForm.SubmitDisabled` | src/components/CreateShipmentForm.tsx:141 | the button is disabled for an invalid form or while loading |
| `CreateForm.EnabledMeansValid` | src/components/CreateShipmentForm.tsx:141 | the button is enabled iff nothing loads and every field has content |
| `CreateForm.CreateShipmentForm.constructor` | src/components/CreateShipmentForm.tsx:16-24 | the form starts with seven empty fields |
| `CreateForm.CreateShipmentForm.HandleInputChange` | src/components/CreateShipmentForm.tsx:26-33 | exactly the named field changes |
| `CreateForm.CreateShipmentForm.HandleSubmit` | src/components/CreateShipmentForm.tsx:35-38 | the record goes to `onSubmit` unchanged and untrimmed |
| `CheckForm.Submission` | src/components/CheckShipmentForm.tsx:27-39 | nothing when any of the three values is blank after trimming, else the three values untrimmed |
| `CheckForm.SubmitDisabled` | src/components/CheckShipmentForm.tsx:107 | the button is disabled while loading or when any of the three values is blank after trimming |
| `CheckForm.SubmitsWhenEnabled` | src/components/CheckShipmentForm.tsx:30-107 | submission happens iff the button is enabled while not loading; loading always disables |
| `CheckForm.InitialNotSubmittable` | src/components/CheckShipmentForm.tsx:13-17 | the initial form has the three keys and cannot be submitted |
| `CheckForm.CheckShipmentForm.constructor` | src/components/CheckShipmentForm.tsx:13-17 | three empty fields |
| `CheckForm.CheckShipmentForm.HandleInputChange` | src/components/CheckShipmentForm.tsx:19-25 | only the key named by the input changes |
| `CheckForm.CheckShipmentForm.HandleSubmit` | src/components/CheckShipmentForm.tsx:27-39 | the value of the submission rule |
| `Address.FormatAddress` | src/components/WalletHeader.tsx:18-20 | first six characters, "...", last four (clamped like `slice`); 13 characters for addresses of 10 or more |
| `Address.FormatAddressSameIff` | src/components/WalletHeader.tsx:18-20 | for long addresses, two abbreviations agree iff the first six and last four characters agree |
| `Address.ShortAddress` | src/app/dashboard/escrow/page.tsx:239-241 | a string of four characters or fewer is shown whole on both sides of the ellipsis |
| `WalletHeaderView.DisplayText` | src/components/WalletHeader.tsx:27 | the abbreviation for a truthy account, else "Not connected" |
| `WalletHeaderView.DisplayTellsConnection` | src/components/WalletHeader.tsx:27 | the text is "Not connected" iff there is no truthy account |
| `WalletHeaderView.ShowsCopyButton` | src/components/WalletHeader.tsx:29 | the copy button is shown only for a truthy account |
| `WalletHeaderView.WalletHeader.constructor` | src/components/WalletHeader.tsx:8 | not copied, nothing on the clipboard, no timers |
| `WalletHeaderView.WalletHeader.CopyAddress` | src/components/WalletHeader.tsx:10-16 | nothing without an account or when the write is rejected; a successful write puts the account on the clipboard, sets `copied` and schedules a reset 2000 ms later |
| `WalletHeaderView.WalletHeader.TimerFires` | src/components/WalletHeader.tsx:14 | the first scheduled pending reset fires and clears `copied` |
| `EscrowRecords.EscrowSet` | src/app/dashboard/escrow/page.tsx:165-174 | the named escrow field takes the value, the others keep theirs |
| `EscrowRecords.EscrowSetUnchanged` | src/app/dashboard/escrow/page.tsx:165-174 | writing a field's own value back changes nothing |
| `EscrowRecords.MockEscrowData` | src/app/dashboard/escrow/page.tsx:61-69 | the route's token id or "12345", locked, owned by the supplier, stamped now |
| `EscrowRecords.FormSet` | src/app/dashboard/escrow/page.tsx:108-115 | the named contract-form field takes the value, the others keep theirs |
| `EscrowRecords.NewContract` | src/app/dashboard/escrow/page.tsx:117-136 | a contract iff the day count is a number and both dates are in range: id "CONTRACT-" + now, the form's parties, amount and terms, "Active", expiry now + days·86400000 |
| `EscrowRecords.ContractIdsDistinct` | src/app/dashboard/escrow/page.tsx:126 | contracts made at different clock readings get different ids |
| `EscrowRecords.ActiveCount` | src/app/dashboard/escrow/page.tsx:728 | the number of "Active" contracts, at most the total |
| `EscrowRecords.CreatedContractCounts` | src/app/dashboard/escrow/page.tsx:128-136 | prepending a new contract raises the active count by one |
| `EscrowGroups.BelowTotal` | src/app/dashboard/escrow/page.tsx:207 | the default sort order on strings is total and asymmetric |
| `EscrowGroups.Below` | src/app/dashboard/escrow/page.tsx:207 | the default `sort` comparison: lexicographic order on characters, a proper prefix first |
| `EscrowGroups.PartyKey` | src/app/dashboard/escrow/page.tsx:207 | the sorted-and-joined pair: the two parties in sorted order around the separator |
| `EscrowGroups.PartyKeySymmetric` | src/app/dashboard/escrow/page.tsx:206-207 | (A, B) and (B, A) have the same key |
| `EscrowGroups.PartyKeyCollides` | src/app/dashboard/escrow/page.tsx:207 | a separator inside a party makes different pairs share a key |
| `EscrowGroups.ContractKey` | src/app/dashboard/escrow/page.tsx:207 | the key of a contract: the party key of its two parties |
| `EscrowGroups.Add` | src/app/dashboard/escrow/page.tsx:207-211 | one `forEach` step: a new key is appended with an empty list, then the contract is pushed under its key |
| `EscrowGroups.GroupsOf` | src/app/dashboard/escrow/page.tsx:203-214 | the object after the `forEach`: `Add` over every contract in order, the reference for `GetContractGroups` |
| `EscrowGroups.GroupsWellFormed` | src/app/dashboard/escrow/page.tsx:203-214 | the group object's key order lists each stored key exactly once |
| `EscrowGroups.GroupKeysPresent` | src/app/dashboard/escrow/page.tsx:203-214 | a key is present iff some contract has that pair |
| `EscrowGroups.GroupListsFiltered` | src/app/dashboard/escrow/page.tsx:205-212 | the list under a key is exactly that pair's contracts, in their original order |
| `EscrowGroups.ExactlyOneGroup` | src/app/dashboard/escrow/page.tsx:205-212 | every contract is in its own pair's group and in no other |
| `EscrowGroups.GroupKeepsOrder` | src/app/dashboard/escrow/page.tsx:211 | each group is a subsequence of the contracts |
| `EscrowGroups.SumSizesFrame` | src/app/dashboard/escrow/page.tsx:205-212 | replacing a list under a key not counted leaves the total unchanged |
| `EscrowGroups.SumSizesPush` | src/app/dashboard/escrow/page.tsx:211 | pushing under a counted key raises the total by one |
| `EscrowGroups.GroupSizesSum` | src/app/dashboard/escrow/page.tsx:205-212 | the group sizes add up to the number of contracts |
| `EscrowGroups.GetContractGroups` | src/app/dashboard/escrow/page.tsx:202-215 | the `forEach` builds exactly the groups of the specification |
| `Escrow.EscrowPage.constructor` | src/app/dashboard/escrow/page.tsx:38-58 | the page's initial state, the contract form empty with 30 days |
| `Escrow.EscrowPage.FetchEscrowData` | src/app/dashboard/escrow/page.tsx:81-100 | the canned escrow is loaded, the error cleared, loading ends |
| `Escrow.EscrowPage.EscrowDataChanged` | src/app/dashboard/escrow/page.tsx:75-79 | a loaded escrow is copied into the edit buffer |
| `Escrow.EscrowPage.HandleContractInputChange` | src/app/dashboard/escrow/page.tsx:108-115 | exactly the named form field changes |
| `Escrow.EscrowPage.HandleCreateContract` | src/app/dashboard/escrow/page.tsx:117-150 | on success exactly one new contract is prepended, the rest keep their order, the form is reset to empty with "30" and hidden; on a throw nothing but the busy flag moves; the flag ends clear |
| `Escrow.EscrowPage.ToggleContractForm` | src/app/dashboard/escrow/page.tsx:602 | the form flag flips |
| `Escrow.EscrowPage.HideContractForm` | src/app/dashboard/escrow/page.tsx:703 | the form is hidden, typed values kept |
| `Escrow.EscrowPage.StartEditing` | src/app/dashboard/escrow/page.tsx:357 | edit mode starts |
| `Escrow.EscrowPage.HandleEscrowInputChange` | src/app/dashboard/escrow/page.tsx:165-174 | one field of a present buffer changes; an absent buffer stays absent |
| `Escrow.EscrowPage.HandleSaveEscrow` | src/app/dashboard/escrow/page.tsx:176-192 | the buffer becomes the escrow and edit mode ends; a no-op without a buffer |
| `Escrow.EscrowPage.HandleCancelEdit` | src/app/dashboard/escrow/page.tsx:194-199 | the buffer is restored from a loaded escrow and edit mode ends |
| `Escrow.EscrowPage.ContractGroups` | src/app/dashboard/escrow/page.tsx:202-215 | the groups of the current contracts |
| `Escrow.EditSaveCancel` | src/app/dashboard/escrow/page.tsx:165-199 | edit, save, cancel leaves escrow and buffer equal, with the edited value |
| `Wallet.UseWallet` | src/hooks/useWallet.tsx:117-123 | the context inside a provider, the fixed error outside one |
| `Wallet.StoredFlag` | src/hooks/useWallet.tsx:66 | `localStorage.getItem(key)` is truthy: present and not empty |
| `Wallet.WalletProvider.Context` | src/hooks/useWallet.tsx:103-110 | for a valid provider, a consumer that sees a connected wallet also sees an account; the value carries the provider's state |
| `Wallet.WalletProvider.constructor` | src/hooks/useWallet.tsx:22-25 | no account, not connected, not connecting, no provider; storage as found |
| `Wallet.WalletProvider.Connect` | src/hooks/useWallet.tsx:27-52 | no extension: alert, no change; a non-empty reply connects its first account and stores both keys; an empty or failed reply changes no account, connection or storage; connecting ends false; connected implies an account |
| `Wallet.WalletProvider.Disconnect` | src/hooks/useWallet.tsx:54-60 | no account, not connected, no provider, both keys removed |
| `Wallet.WalletProvider.CheckConnection` | src/hooks/useWallet.tsx:63-80 | restores the first account only with the extension present and the stored flag truthy; never writes storage |
| `Wallet.WalletProvider.AccountsChanged` | src/hooks/useWallet.tsx:86-93 | an empty list disconnects; otherwise account and stored account change and the connection flag does not |
| `Wallet.ReloadRestores` | src/hooks/useWallet.tsx:40-75 | after a successful connect, a reload over the same storage reconnects |
| `Wallet.DisconnectForgets` | src/hooks/useWallet.tsx:54-67 | after a disconnect, a reload does not reconnect |

## Left out

- Rendering, styling and layout, including every JSX branch that only chooses what to display.
- Network calls: the axios requests, Hedera SDK transactions and receipts, and Web3.Storage `put`. Their
  outcomes are inputs.
- Parse failures of `req.json()` and `req.formData()`. The event, create and upload routes answer them
  with their generic 500 path, which is not modelled.
- Timers: the upload wait is returned as a list of delays, not slept. The escrow and mock-page sleeps are
  not modelled.
- The clock and dates. Times are integer milliseconds, given as inputs, and ISO-8601 formatting is not
  modelled. `formatDate` and locale formatting are left out.
- Calendar arithmetic in the all-shipments date filter: the today/week/month thresholds are inputs.
- Several clock readings in one handler: `handleCreateContract` reads `Date.now()` three times, and the
  model uses one reading for all three.
- `parseInt` of `expiresIn`: its result, or NaN, is an input (`days`).
- The floating-point "Total value" over contract amounts in the escrow page.
- The escrow page's `getContractStatusBadge`, `getStatusIcon` and `getStatusBadge`: presentation only.
- `handleRefresh` in the escrow page: it only wraps the fetch with a flag.
- The fetch error path of the escrow page: the canned fetch cannot throw.
- Unicode case folding: `toLowerCase` is modelled on ASCII letters only.
- The sort order is modelled on characters, not on UTF-16 code units. The two orders differ only between
  astral-plane characters and characters from U+E000 to U+FFFF.
- JSON arrays, objects and fractional numbers are not represented in request bodies. Booleans are. An array
  or object event type is truthy in the source and would be submitted; `Number()` of a fraction is a
  fraction.
- Strings are sequences of code points, while JavaScript's `slice` and `length` count UTF-16 code units.
  `Address.FormatAddress` therefore differs from the source on astral-plane characters, and its
  "13 characters" counts code points.
- `Json.ToNumber`: text in a numeric syntax other than a signed decimal integer (fractions, exponents,
  binary, octal, hexadecimal, "Infinity") is recognised but its value is not computed; it is kept as
  `OtherString`. Blank text, signed decimal integers and text that JavaScript turns into NaN are modelled
  exactly.
- Serials above 2^53 and the `Long` conversion of mint serials.
- JSON serialisation and `Buffer.from` of the payloads: the records themselves are modelled.
- Browser globals: `window.ethereum` is a flag plus replies, `localStorage` is a string map, the clipboard
  is a field, and `alert` is a returned flag. `chainChanged` reloads the page, which is not modelled.
- The shipment timeline route `app/api/shipment/[id]/route.ts` is not part of this model.
- The mock-only pages check-status and create-status, and the older filterless listing page under
  "app/dashboard/Check All Shipments".
- `Hedera.GetHederaClient`: any non-empty operator id and key give a client. The SDK's
  `AccountId.fromString` and `PrivateKey.fromString` throw on malformed values, which is not modelled; the
  routes' 500 path for a throw stays reachable through the ledger reply input.
- `Wallet.WalletProvider.Connect`: the ethers provider object is reduced to a flag saying whether one is
  held.
