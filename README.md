# Taxi fleet admin dashboard: a Dafny model

This project models the logic behind the screens of a taxi company's
web dashboard. It covers:

- the home page's four live figures;
- the driver-session report and its CSV file;
- the trip list, its CSV file and its PDF receipt;
- the searchable and editable lists of drivers, vehicles and active assignments;
- the PDF letter generator;
- the page that assigns a vehicle to a driver;
- the trip-settings form.

The dashboard is a set of React components. Each page becomes one Dafny
module:

- **State.** State the page updates in place becomes a `class` whose
  methods are the page's handlers. Each handler has a `modifies` clause
  and a postcondition that states its new state.
- **Values.** Computed values (filters, look-ups, request bodies,
  document layouts) become functions. Lemmas state what the page promises
  about them.

Shared modules hold the rest:

| module | contents |
|---|---|
| `Wrappers` | `Option` |
| `Text` | ASCII lower-casing and trimming, substring search, joining and splitting, decimal numerals |
| `Seqs` | filter, find, map and sum, with lemmas |
| `Js` | the JavaScript values the pages handle, plus truthiness, `||`, property reads with and without `?.`, `String(v)`, `join`, `===`, `Number(v)` and `+` |
| `Pdf` | a PDF document as the list of its text commands |
| `Search` | the search-box filters |
| `Forms` | edit-record updates, dates cut to ten characters, and URL building |

**Errors.** A JavaScript `TypeError` is modelled as `None`. Examples are a
property read of `null`, or `toLowerCase` on a missing field. Where the
page catches the error, the handler's postcondition says what is left
unchanged.

**Requests.** HTTP requests are not performed. A handler receives the
response body (`None` for a failed request) or an `ok` flag. It returns
the request it would send.

In a few places the code does not do what a page's labels and evident
purpose suggest. The model follows the code:

- `formatDate(null)` is `undefined`: optional chaining short-circuits.
- The driver list has no "expiring soon" logic.
- When no vehicle has the chosen cab number, `getDriverByCab` compares
  `driver_id` against `undefined`. It therefore returns the first driver
  that has no `driver_id` (`FormGenerators.NoVehiclePicksDriverWithoutId`).
- The refund letter runs into the page footer from the 28th entry on
  (`FormGenerators.RefundFitsAboveFooter`).
- The trip-settings id is never cleared. Settings without an `_id` put the
  form in editing mode, but the submit still creates a new record
  (`TripSettings.EditWithoutIdCreates`).
- An empty `trips` array in the trips response is truthy, so it hides a
  non-empty `data.trips` (`Home.EmptyTripsFieldWins`).

## Model

| member | source | states |
|---|---|---|
| Js.Or | src/routes/Drivers.jsx:15 | `a \|\| b` is one of its operands, and is truthy whenever the fallback is |
| Js.Prop | src/routes/Drivers.jsx:15 | reading a property throws exactly when the object is null or undefined |
| Js.JoinField | src/components/Sessions.jsx:67-73 | `join` renders null and undefined as the empty string and anything else as `String(v)` |
| Js.ToNumber | src/routes/Assign.jsx:72 | `Number(v)` is always a number or NaN |
| Js.StringToNumber | src/routes/Assign.jsx:72 | a string converts to a number or NaN |
| Js.NumberOfString | src/routes/Assign.jsx:72 | `Number` of a decimal numeral gives back its integer |
| Js.Add | src/routes/Home.jsx:21 | `+` adds two numbers and concatenates as soon as one side is a string |
| Text.Lower | src/routes/Drivers.jsx:59 | `toLowerCase` keeps the length and lowers each ASCII capital, nothing else |
| Text.Trim | src/routes/Home.jsx:29 | `trim` removes exactly the leading and trailing white space |
| Text.ContainsEmpty | src/routes/Drivers.jsx:59 | every string `includes` the empty string |
| Seqs.TryFilter | src/routes/ActiveFleet.jsx:16 | a filter whose test may throw: throws iff the test throws on some element, else keeps exactly the passing elements |
| Seqs.TryFind | src/routes/Assign.jsx:34-36 | a `find` whose test may throw: the first passing element when the test never throws; a found element passes and is in the list |
| Pdf.PdfDoc.constructor | src/routes/FormGenerators.jsx:35 | a new document has no text and is not saved |
| Pdf.PdfDoc.Text | src/routes/FormGenerators.jsx:42 | `doc.text` appends one command and changes nothing else |
| Pdf.PdfDoc.TextColumn | src/routes/FormGenerators.jsx:101-107 | drawing lines in a loop, one per step down the page, appends exactly their column |
| Pdf.PdfDoc.Save | src/routes/FormGenerators.jsx:150 | saving records the file name and keeps the text |
| Pdf.Column | src/routes/FormGenerators.jsx:101-107 | line i of a column is drawn at `top + i * step` |
| Search.FieldHas | src/routes/Vehicles.jsx:60 | one field's test throws iff the row is null or the field is neither a string nor (with `?.`) missing; it passes iff the field is a string containing the query |
| Search.AnyHas | src/routes/Vehicles.jsx:59-65 | the `\|\|` chain passes only through a passing field, throws only through a throwing field, and passes when all fields are readable and one contains the query |
| Search.SearchFilter | src/routes/Vehicles.jsx:57-66 | the search keeps a sub-sequence of the list: every kept row matches and every matching row is kept |
| Search.SearchOverText | src/routes/Vehicles.jsx:57-66 | over readable rows the search never throws and keeps exactly the rows with a listed field containing the lowered query |
| Search.EmptyOptionalSearch | src/routes/Vehicles.jsx:57-66 | with `?.`, an empty query keeps exactly the rows that have one of the fields |
| Search.EmptySearchKeepsAll | src/routes/Drivers.jsx:57-61 | an empty query keeps every row whose first searched field is a string |
| Search.NoFieldsNoHit | src/routes/Vehicles.jsx:60-64 | a row with none of the optional fields is never matched |
| Search.OnlyListedFieldsSearched | src/routes/Vehicles.jsx:59-65 | rows that agree on the searched fields get the same answer |
| Forms.AppendSegment | src/routes/Drivers.jsx:48 | appending `/` and a slash-free id adds exactly that id as the URL's last path segment |
| Forms.FormatDate | src/routes/Drivers.jsx:33 | `dateStr?.slice(0, 10)`: undefined for a missing date; for a string (or array) its first ten elements, or all of them if fewer; it throws on any other value |
| Forms.IsoTimestampToDate | src/routes/Drivers.jsx:33 | an ISO timestamp is shown as its date part |
| Forms.FormatDateIdempotent | src/routes/Drivers.jsx:33 | formatting a formatted date changes nothing |
| Forms.SetField | src/routes/Assign.jsx:47-50 | `{...r, [name]: value}` sets that field and keeps every other one |
| Forms.Patch | src/routes/Drivers.jsx:39-42 | an edit-form change sets the named field; a closed (null) record spreads to nothing |
| Forms.PatchTwice | src/routes/Drivers.jsx:39-42 | the later of two changes to one field wins |
| Forms.PatchCommutes | src/routes/Drivers.jsx:39-42 | changes to different fields commute |
| Forms.Without | src/routes/ActiveFleet.jsx:46 | the rest-pattern drops exactly the named keys and keeps the other values |
| Forms.WithoutRestore | src/routes/ActiveFleet.jsx:46 | putting the two dropped fields back gives the original record |
| Forms.UpdateById | src/routes/Drivers.jsx:47-48 | the driver and vehicle edit dialogs send the edit record to the endpoint, then `/`, then the record's id (`driver_id` here, `vehicle_id` at src/routes/Vehicles.jsx:45-46) |
| Forms.UrlEndsWithId | src/routes/Drivers.jsx:48 | the record's id is the URL's last path segment whenever it holds no slash |
| Home.Accumulate | src/routes/Home.jsx:21 | one reduce step throws iff the row is null and adds a numeric balance (0 when falsy) |
| Home.Balance | src/routes/Home.jsx:20-23 | the reduce throws iff some row is null |
| Home.BalanceOf | src/routes/Home.jsx:18-23 | a failed request gives no balance |
| Home.BalanceIsSum | src/routes/Home.jsx:20-23 | with numeric balances the total is the sum of the balances, falsy ones counting 0 |
| Home.MissingAssignmentsGiveZero | src/routes/Home.jsx:19 | a missing or falsy `assignments` gives a balance of 0 |
| Home.StringBalanceConcatenates | src/routes/Home.jsx:21 | a balance stored as a string is concatenated to the 0, not added |
| Home.StatusIs | src/routes/Home.jsx:29 | the status test throws iff the value is neither missing nor a string; passes iff its trimmed lower-case form is the word |
| Home.CountStatusFilter | src/routes/Home.jsx:28-30 | over rows with readable statuses the count is the length of the filter by that status |
| Home.StatusIgnoresPaddingAndCase | src/routes/Home.jsx:29 | " Active " counts as active; a missing status does not |
| Home.ActiveOf | src/routes/Home.jsx:27-30 | a failed sessions request gives no count |
| Home.LiveOf | src/routes/Home.jsx:34-35 | a failed live-drivers request gives no list |
| Home.LiveAreOnline | src/routes/Home.jsx:35 | the live drivers are exactly the online ones, in response order |
| Home.NormaliseTrips | src/routes/Home.jsx:42-49 | normalising throws exactly on a null body |
| Home.NormaliseTripsShapes | src/routes/Home.jsx:43-49 | an array, else a truthy `trips`, else a truthy `data.trips`, else `[]` |
| Home.EmptyTripsFieldWins | src/routes/Home.jsx:45-46 | an empty `trips` array hides `data.trips` |
| Home.TripCountsOf | src/routes/Home.jsx:57-62 | a failed trips request gives no counts |
| Home.TripCountsBound | src/routes/Home.jsx:57-62 | in-progress plus completed never exceeds the number of trips |
| Home.Dashboard.constructor | src/routes/Home.jsx:8-12 | the figures start at zero and the live list empty |
| Home.Dashboard.FetchData | src/routes/Home.jsx:15-69 | each figure is set in request order, and the first failure leaves it and all later figures as they were |
| Sessions.MinutesFloor | src/components/Sessions.jsx:37-45 | a session's minutes are the floor of its elapsed milliseconds over 60000, to logout or to now |
| Sessions.PrefixKeys | src/components/Sessions.jsx:47-58 | the insertion order lists each key of the dictionary exactly once |
| Sessions.PrefixSessionKeys | src/components/Sessions.jsx:47-58 | after n sessions, each of their keys names a group and each group is the key of one of them |
| Sessions.GroupAllKeys | src/components/Sessions.jsx:29-60 | the report has one group per distinct key |
| Sessions.FoldSession | src/components/Sessions.jsx:31-58 | one `forEach` step either adds to the group of its key or creates that group at the end of the order |
| Sessions.GroupSessions | src/components/Sessions.jsx:28-61 | the loop over all sessions produces exactly the grouped report |
| Sessions.PrefixTotals | src/components/Sessions.jsx:47-57 | after n sessions, a group's total is the sum of the minutes of its sessions among them |
| Sessions.GroupTotals | src/components/Sessions.jsx:47-57 | a group's total is the sum of the minutes of all sessions with its key |
| Sessions.AddSessionCounts | src/components/Sessions.jsx:47-57 | one fold step adds exactly one to the sum of the session counts |
| Sessions.PrefixCounts | src/components/Sessions.jsx:47-57 | after n sessions, the session counts add up to n |
| Sessions.PrefixNonEmpty | src/components/Sessions.jsx:47-57 | every group counts at least one session |
| Sessions.CountsCoverSessions | src/components/Sessions.jsx:47-60 | the counts add up to the number of sessions, so there are no more rows than sessions |
| Sessions.GroupFromFirstSession | src/components/Sessions.jsx:51-57 | a group's driver, cab and day come from the first session with its key |
| Sessions.KeysGrowByAppending | src/components/Sessions.jsx:47-58 | folding more sessions only appends keys |
| Sessions.GroupOrder | src/components/Sessions.jsx:60 | rows come out in the order in which their keys first occur |
| Sessions.TwoSessionsOneRow | src/components/Sessions.jsx:34-49 | two sessions of one driver, cab and day make one row with both minutes and a count of 2 |
| Sessions.DashInIdsMergesGroups | src/components/Sessions.jsx:34 | driver "7-A" in cab "B" and driver "7" in cab "A-B" share a key and so a row |
| Sessions.FilterGroups | src/components/Sessions.jsx:88-96 | the search keeps, in order, exactly the rows whose id, cab or day contains the lowered term; an empty term keeps all |
| Sessions.SearchIgnoresCase | src/components/Sessions.jsx:90-93 | the term is lowered: "AB1" finds cab "cab1" |
| Sessions.CsvTextSnoc | src/components/Sessions.jsx:74 | one more group appends exactly its line |
| Sessions.DownloadCsv | src/components/Sessions.jsx:64-75 | the loop builds exactly the header and one line per group |
| Sessions.HeaderHasNoNewline | src/components/Sessions.jsx:65 | the header is a single line |
| Sessions.CsvLines | src/components/Sessions.jsx:65-75 | split at newlines, the file is the header, one line per group in order, and a final empty line |
| Sessions.NumberHasNoComma | src/components/Sessions.jsx:71-72 | a numeral holds no comma or newline |
| Sessions.CsvRowFields | src/components/Sessions.jsx:67-73 | split at commas, a row gives back its five fields when they hold no comma |
| Trips.TripList | src/components/Trips.jsx:14 | reading `trips` throws exactly on a null body |
| Trips.TripListShapes | src/components/Trips.jsx:14 | an array `trips` field is taken, otherwise the whole body |
| Trips.FilterTrips | src/components/Trips.jsx:88-99 | the search keeps, in order, exactly the trips with a truthy cab, driver, vehicle, status or id containing the lowered term; an empty term keeps all |
| Trips.ZeroDriverIdIsNotSearched | src/components/Trips.jsx:93 | driver id 0 is falsy and never matched, while 10 matches "0" |
| Trips.CsvSource | src/components/Trips.jsx:32-46 | a row has fourteen values; every column but the coordinates reads the trip field its header names, and columns 6-9 read `lat` and `lng` of the pickup and drop-off locations with `?.` |
| Trips.HeaderNamesColumns | src/components/Trips.jsx:29-30 | split at commas, the header gives exactly the fourteen column names, in order |
| Trips.CellsUnderHeader | src/components/Trips.jsx:29-46 | every non-coordinate cell is the trip field named by the header above it, as `join` renders it, after `\|\| ""` in the defaulted columns |
| Trips.CsvValues | src/components/Trips.jsx:32-46 | the values after the `\|\| ""` defaults are fourteen |
| Trips.CsvCellsMeaning | src/components/Trips.jsx:32-47 | the defaulted cells are empty for falsy values and the others are rendered as `join` does |
| Trips.ZeroDurationExportsEmpty | src/components/Trips.jsx:33-38 | a zero duration exports as empty, but a zero driver id exports as "0" |
| Trips.CsvTextSnoc | src/components/Trips.jsx:48 | one more trip appends exactly its line |
| Trips.CsvRowFields | src/components/Trips.jsx:32-47 | split at commas, a row gives back its cells when they hold no comma |
| Trips.PrefixHasNoNewline | src/components/Trips.jsx:28 | the data-URI prefix holds no newline |
| Trips.HeaderHasNoNewline | src/components/Trips.jsx:30 | the header is a single line |
| Trips.CsvLines | src/components/Trips.jsx:28-49 | split at newlines, the file is prefix plus header, one line per trip, and a final empty line |
| Trips.ReceiptLines | src/components/Trips.jsx:64-79 | a receipt has twelve lines |
| Trips.ReceiptLayout | src/components/Trips.jsx:59-85 | the title at (20, 20), then line i at (20, 35 + 10i) |
| Trips.ReceiptDefaults | src/components/Trips.jsx:69-76 | missing end time, duration, distance and fare print as N/A, 0, 0 and $0 |
| Trips.GenerateReceipt | src/components/Trips.jsx:59-86 | the receipt document holds exactly the receipt commands and is saved under the trip's id |
| Trips.TripsPage.constructor | src/components/Trips.jsx:5-7 | no trips and an empty search |
| Trips.TripsPage.FetchTrips | src/components/Trips.jsx:9-21 | a body stores its trip list; a failure or a null body keeps the old one |
| Trips.TripsPage.FilteredTrips | src/components/Trips.jsx:88-99 | the shown trips are the search over the stored list |
| Trips.TripsPage.DownloadCsv | src/components/Trips.jsx:27-49 | the file is built from every stored trip, not only the shown ones |
| Drivers.NameSearch | src/routes/Drivers.jsx:57-61 | over named rows the search keeps, in order, exactly the drivers whose first or last name contains the lowered query |
| Drivers.EmptySearchKeepsAllDrivers | src/routes/Drivers.jsx:57-61 | an empty query keeps every driver with a first name |
| Drivers.FilterDrivers | src/routes/Drivers.jsx:57-61 | the result is a sub-sequence, and over named rows it is the name filter |
| Drivers.DriversPage.constructor | src/routes/Drivers.jsx:7-9 | no drivers, no search, no open record |
| Drivers.DriversPage.FetchDrivers | src/routes/Drivers.jsx:12-19 | `data.drivers \|\| []` is stored; a failure or a null body keeps the old list |
| Drivers.DriversPage.SetSearch | src/routes/Drivers.jsx:23-25 | only the query changes |
| Drivers.DriversPage.FilteredDrivers | src/routes/Drivers.jsx:57-61 | the shown drivers are the search over the stored list, which throws if the list is not an array |
| Drivers.DriversPage.ExportRows | src/routes/Drivers.jsx:27-28 | the export is exactly the shown drivers |
| Drivers.DriversPage.EditClick | src/routes/Drivers.jsx:35-37 | the clicked row is opened for editing |
| Drivers.DriversPage.EditChange | src/routes/Drivers.jsx:39-42 | one field of the open record is set; the list is untouched |
| Drivers.DriversPage.EditSubmit | src/routes/Drivers.jsx:44-55 | nothing is sent without an open record; otherwise its update is sent, and success closes it while failure keeps it |
| Vehicles.FilterVehicles | src/routes/Vehicles.jsx:57-66 | the result is a sub-sequence, and over readable rows it keeps exactly the vehicles with a present field containing the query |
| Vehicles.NoSearchedFieldDropped | src/routes/Vehicles.jsx:57-66 | a vehicle with none of the five fields is dropped, even by an empty query |
| Vehicles.EmptyQueryKeepsVehiclesWithAField | src/routes/Vehicles.jsx:57-66 | an empty query keeps exactly the vehicles with one of the fields |
| Vehicles.UnsearchedFieldsIgnored | src/routes/Vehicles.jsx:57-66 | VIN, year and status never affect the search |
| Vehicles.VehiclesPage.constructor | src/routes/Vehicles.jsx:7-9 | no vehicles, no search, no open record |
| Vehicles.VehiclesPage.FetchVehicles | src/routes/Vehicles.jsx:12-19 | `data.vehicles \|\| []` is stored; a failure or a null body keeps the old list |
| Vehicles.VehiclesPage.SetSearch | src/routes/Vehicles.jsx:29-31 | only the query changes |
| Vehicles.VehiclesPage.FilteredVehicles | src/routes/Vehicles.jsx:57-66 | the shown vehicles are the search over the stored list |
| Vehicles.VehiclesPage.ExportRows | src/routes/Vehicles.jsx:23-24 | the export is exactly the shown vehicles |
| Vehicles.VehiclesPage.EditClick | src/routes/Vehicles.jsx:33-35 | the clicked row is opened for editing |
| Vehicles.VehiclesPage.EditChange | src/routes/Vehicles.jsx:37-40 | one field of the open record is set |
| Vehicles.VehiclesPage.EditSubmit | src/routes/Vehicles.jsx:42-53 | nothing is sent without an open record; otherwise its update is sent, and success closes it while failure keeps it |
| ActiveFleet.IsActive | src/routes/ActiveFleet.jsx:16 | the test throws iff the row is null and passes iff its status is exactly "active" |
| ActiveFleet.ActiveOnly | src/routes/ActiveFleet.jsx:15-16 | a null body or non-array list throws, a missing list gives `[]`, and an array gives its active rows unless one is null |
| ActiveFleet.LoadedAreActive | src/routes/ActiveFleet.jsx:15-17 | every loaded assignment is active, and every active one of the response is loaded, in order |
| ActiveFleet.FilterAssignments | src/routes/ActiveFleet.jsx:61-71 | the result is a sub-sequence, and over readable rows it keeps exactly those with one of the six fields containing the query |
| ActiveFleet.EmptyQueryKeepsAll | src/routes/ActiveFleet.jsx:61-71 | an empty query keeps every assignment with a first name |
| ActiveFleet.UpdateRequest | src/routes/ActiveFleet.jsx:46-52 | sent to `endpoint/driver_id/vehicle_id`, with a body of every other field |
| ActiveFleet.UrlEndsWithBothIds | src/routes/ActiveFleet.jsx:50 | the last two path segments are the driver id and then the vehicle id |
| ActiveFleet.PayloadAndIdsRestoreRecord | src/routes/ActiveFleet.jsx:46 | the body plus the two ids gives back the edit record |
| ActiveFleet.ActiveFleetPage.constructor | src/routes/ActiveFleet.jsx:7-9 | no assignments, no search, no open record |
| ActiveFleet.ActiveFleetPage.FetchAssignments | src/routes/ActiveFleet.jsx:12-21 | the active rows are stored; any error keeps the old list |
| ActiveFleet.ActiveFleetPage.SetSearch | src/routes/ActiveFleet.jsx:25 | only the query changes |
| ActiveFleet.ActiveFleetPage.Filtered | src/routes/ActiveFleet.jsx:61-71 | the shown rows are the search over the stored list |
| ActiveFleet.ActiveFleetPage.ExportRows | src/routes/ActiveFleet.jsx:27-28 | the export is exactly the shown rows |
| ActiveFleet.ActiveFleetPage.EditClick | src/routes/ActiveFleet.jsx:35-37 | the clicked row is opened for editing |
| ActiveFleet.ActiveFleetPage.EditChange | src/routes/ActiveFleet.jsx:39-42 | one field of the open record is set |
| ActiveFleet.ActiveFleetPage.EditSubmit | src/routes/ActiveFleet.jsx:44-59 | destructuring a closed record throws before any request; otherwise the update is sent, and success closes the record |
| FormGenerators.HasCab | src/routes/FormGenerators.jsx:29 | the cab test throws iff the row is null and passes iff its cab number is exactly the chosen string |
| FormGenerators.HasDriverId | src/routes/FormGenerators.jsx:30 | the driver test throws iff the row is null and passes iff its `driver_id` is `===` the vehicle's id |
| FormGenerators.VehicleOfCab | src/routes/FormGenerators.jsx:29 | a found vehicle is in the list with that cab number; over a list of objects the look-up never throws, returns the first vehicle with the cab, and undefined means no vehicle has the cab |
| FormGenerators.DriverByCab | src/routes/FormGenerators.jsx:28-32 | the result is always truthy (`d \|\| {}`) |
| FormGenerators.DriverByCabTotal | src/routes/FormGenerators.jsx:28-32 | over lists of objects the look-up never throws |
| FormGenerators.DriverByCabCases | src/routes/FormGenerators.jsx:28-32 | over lists of objects the result is the first driver whose id is `===` the found vehicle's `vehicle_id` (undefined when no vehicle has the cab, so a driver without an id), and `{}` exactly when no driver matches |
| FormGenerators.NoVehiclePicksDriverWithoutId | src/routes/FormGenerators.jsx:29-31 | with no vehicle for the cab, a driver lacking `driver_id` is picked |
| FormGenerators.FooterIsFixed | src/routes/FormGenerators.jsx:144-148 | every letter ends with the same five footer lines at y = 280 to 304 |
| FormGenerators.RefundLayout | src/routes/FormGenerators.jsx:94-110 | the refund letter: two lines, one bullet per entry 8 apart from y = 40, then the blank and closing lines at 50 + 8n and 60 + 8n |
| FormGenerators.RefundDocumentYs | src/routes/FormGenerators.jsx:101-109 | the heights of every line of the refund document |
| FormGenerators.UnknownFormType | src/routes/FormGenerators.jsx:140-141 | an unknown form type gives the single "Invalid form selection" line and the footer |
| FormGenerators.InsuranceLetter | src/routes/FormGenerators.jsx:41-54 | the insurance letter names the cab and the effective date at their fixed heights |
| FormGenerators.RefundFitsAboveFooter | src/routes/FormGenerators.jsx:101-148 | the refund letter runs top to bottom iff it has at most 27 entries |
| FormGenerators.DrawInsurance | src/routes/FormGenerators.jsx:41-54 | drawing appends exactly the insurance body |
| FormGenerators.DrawAviRequest | src/routes/FormGenerators.jsx:56-92 | drawing appends exactly the AVI request body |
| FormGenerators.DrawAviRequestHeader | src/routes/FormGenerators.jsx:57-62 | drawing appends exactly the request's fixed opening lines |
| FormGenerators.DrawAviRequestDetails | src/routes/FormGenerators.jsx:63-91 | drawing appends exactly the driver and vehicle lines |
| FormGenerators.DrawAviRefund | src/routes/FormGenerators.jsx:94-110 | the `forEach` over the entries appends exactly the refund body |
| FormGenerators.DrawInsuranceRemove | src/routes/FormGenerators.jsx:112-138 | drawing appends exactly the removal body |
| FormGenerators.DrawBody | src/routes/FormGenerators.jsx:40-142 | the `switch` draws the body its form type selects |
| FormGenerators.FormGeneratorPage.constructor | src/routes/FormGenerators.jsx:6-12 | insurance form, empty cab and date, empty lists, one blank refund entry |
| FormGenerators.FormGeneratorPage.FetchData | src/routes/FormGenerators.jsx:14-24 | both lists are stored only when both requests succeed and, in order, each body is non-null |
| FormGenerators.FormGeneratorPage.SetFormType | src/routes/FormGenerators.jsx:162 | only the form type changes |
| FormGenerators.FormGeneratorPage.SetCabNumber | src/routes/FormGenerators.jsx:178 | only the cab number changes |
| FormGenerators.FormGeneratorPage.SetEffectiveDate | src/routes/FormGenerators.jsx:194 | only the date changes |
| FormGenerators.FormGeneratorPage.AddEntry | src/routes/FormGenerators.jsx:236-237 | one blank entry is appended |
| FormGenerators.FormGeneratorPage.SetEntryCab | src/routes/FormGenerators.jsx:211-215 | only that entry's cab changes |
| FormGenerators.FormGeneratorPage.SetEntryVin | src/routes/FormGenerators.jsx:224-228 | only that entry's VIN changes |
| FormGenerators.FormGeneratorPage.GeneratePdf | src/routes/FormGenerators.jsx:34-151 | a throwing look-up produces no file; otherwise the document is body plus footer, saved as `<type>_form.pdf` |
| Assign.IdMatches | src/routes/Assign.jsx:35 | the id test throws iff the row or its id is null or undefined, and passes iff the id's string is the chosen value |
| Assign.Lookup | src/routes/Assign.jsx:34-36 | a found row is in the list and has the chosen id |
| Assign.LookupCases | src/routes/Assign.jsx:33-45 | over rows with ids the look-up never throws; it is undefined iff no id matches, and otherwise the first matching row |
| Assign.InitialForm | src/routes/Assign.jsx:10-14 | the form holds the insurance flag, the balance and the status |
| Assign.PayloadFromDriver | src/routes/Assign.jsx:61-74 | the driver's id, email and names are sent unchanged |
| Assign.PayloadFromVehicle | src/routes/Assign.jsx:61-74 | the vehicle's id, cab number, make, model and plate are sent unchanged |
| Assign.PayloadFromForm | src/routes/Assign.jsx:71-73 | insurance flag and status come from the form, and the balance goes through `Number` |
| Assign.PayloadHasTwelveFields | src/routes/Assign.jsx:61-74 | the body has exactly twelve fields |
| Assign.BalanceIsPostedAsNumber | src/routes/Assign.jsx:72 | a typed whole number is posted as that number, and the initial balance as 0 |
| Assign.AssignPage.constructor | src/routes/Assign.jsx:6-16 | empty lists, null selections, the initial form, no messages |
| Assign.AssignPage.FetchData | src/routes/Assign.jsx:19-29 | the drivers are stored before the vehicles are requested, so a vehicles failure keeps the new drivers |
| Assign.AssignPage.DriverChange | src/routes/Assign.jsx:33-38 | the selection becomes the look-up's answer (possibly undefined); a throwing look-up changes nothing |
| Assign.AssignPage.VehicleChange | src/routes/Assign.jsx:40-45 | the same for vehicles |
| Assign.AssignPage.InputChange | src/routes/Assign.jsx:47-50 | only the named form field changes |
| Assign.AssignPage.Submit | src/routes/Assign.jsx:52-92 | without both selections: the error message and no post; otherwise the payload is posted, success resets the selections and form, and failure keeps them |
| TripSettings.EmptyForm | src/routes/TripSettings.jsx:6-12 | five fields, and only currency and author are non-empty |
| TripSettings.Initial | src/routes/TripSettings.jsx:5-15 | the page opens on the empty form, not editing, with a null id |
| TripSettings.SettingsForm | src/routes/TripSettings.jsx:66-72 | the four fare fields are copied, and the author is copied or "admin" when falsy |
| TripSettings.Change | src/routes/TripSettings.jsx:30-33 | one field changes and the mode stays |
| TripSettings.Request | src/routes/TripSettings.jsx:38-46 | an update to the endpoint with the id appended directly iff editing with a truthy id, else a create; the form is the body |
| TripSettings.AfterSubmit | src/routes/TripSettings.jsx:49-61 | success empties the form and leaves editing but keeps the id; failure changes nothing |
| TripSettings.AfterEdit | src/routes/TripSettings.jsx:64-75 | no-op without truthy settings; otherwise the form is filled from the settings, editing starts, and the id is `_id` |
| TripSettings.TransitionsKeepFields | src/routes/TripSettings.jsx:30-75 | the five form fields survive every transition |
| TripSettings.EditThenSubmitUpdates | src/routes/TripSettings.jsx:35-75 | edit then submit updates the loaded record with the copied form |
| TripSettings.EditWithoutIdCreates | src/routes/TripSettings.jsx:35-75 | settings without a truthy `_id` still enter editing mode, yet the submit creates |
| TripSettings.ChangesKeepTarget | src/routes/TripSettings.jsx:30-46 | field changes keep the request's kind and URL and change only its body |
| TripSettings.SubmitThenCreates | src/routes/TripSettings.jsx:49-57 | after a success the old id is kept, yet the next submit creates an empty form |
| TripSettings.FailedSubmitRepeats | src/routes/TripSettings.jsx:58-61 | after a failure the next submit sends the same request |
| TripSettings.EditIdempotent | src/routes/TripSettings.jsx:64-75 | editing twice from the same settings is editing once |
| TripSettings.EditedFormHasAuthor | src/routes/TripSettings.jsx:71 | the edited form always names a truthy author |
| TripSettings.TripSettingsPage.constructor | src/routes/TripSettings.jsx:5-15 | null settings and the initial mode |
| TripSettings.TripSettingsPage.FetchSettings | src/routes/TripSettings.jsx:21-28 | a body replaces the settings, a failure keeps them; the form is untouched |
| TripSettings.TripSettingsPage.HandleChange | src/routes/TripSettings.jsx:30-33 | the state moves by `Change` |
| TripSettings.TripSettingsPage.HandleSubmit | src/routes/TripSettings.jsx:35-62 | sends `Request` of the old state and moves by `AfterSubmit` |
| TripSettings.TripSettingsPage.HandleEdit | src/routes/TripSettings.jsx:64-75 | the state moves by `AfterEdit` of the loaded settings |

## Left out

- HTTP: axios and fetch calls, endpoint variables, `alert` and `console`. Each response is a parameter (`None` for a failure), and each request is a returned value.
- Rendering: JSX, Bootstrap tables and modals, loading flags, `e.preventDefault()`.
- The libraries behind exports: `Papa.unparse`, `Blob`, `saveAs`, `encodeURI` and DOM link clicks. An export is modelled as the rows or text handed to them.
- jsPDF fonts and font sizes: a document is its list of text commands and its saved name.
- Dates and the clock: a login day is a `dayOf` parameter, `toLocaleString` is a `localeString` parameter, and `Date.now()` is a `now` parameter. Invalid dates are not modelled.
- Floating point: numbers are integers. `Js.StringToNumber` reads only signed decimal integers; every other string becomes NaN, including decimals ("12.5"), exponents ("1e3"), hexadecimal ("0x10") and "Infinity", which JavaScript's `Number` reads as numbers. So `Assign.Payload` posts NaN as `weekly_balance` for a typed balance such as "12.50", where the page posts 12.5. Money and fares are shown as integers, and `toFixed` displays are not modelled.
- Unicode: `toLowerCase` and `trim` work on ASCII only.
- Browser form validation: the model is of the submit handlers alone. The `required` inputs of the assign and trip-settings forms keep the browser from calling the handler while such a field is empty, and that check is not modelled. So `Assign.AssignPage.Submit` with an empty insurance date, and the empty-form create of `TripSettings.SubmitThenCreates`, describe handler calls the page itself does not make.
- The 15-second refresh timer of the home page, and the asynchronous re-fetch after a trip-settings save. The re-fetch is the separate `TripSettings.TripSettingsPage.FetchSettings`.
- The session list's own fetch: the report takes the session list as a parameter.
- The unused `driver` state of the form generator.
- Layout, route table, map view, login, the three "add" forms and the AVI-tag upload page are not part of this model.
- Sessions.FilterGroups: requires every row to have a non-null driver id and a string cab when the term is non-empty. This also excludes rows the source keeps: the `||` chain stops at the first field that matches, and the source throws only when the chain reaches the unreadable field. A group with driver id 7 and cab number 5 is kept by the term "7" in the source but lies outside the requires.
- Trips.FilterTrips: requires the cab number, status and id of every row to be strings whenever they are truthy, when the term is non-empty. This also excludes rows the source keeps: the `||` chain stops at the first field that matches, and the source throws only when the chain reaches the non-string field. A trip with cab number "c1" and id 3 is kept by the term "c1" in the source but lies outside the requires.
- Trips.TripsPage.FilteredTrips: requires the stored trips to be a list of objects.
- Trips.TripsPage.DownloadCsv: requires the stored trips to be a list of objects.
- FormGenerators.FormGeneratorPage.SetEntryCab: requires an existing index. The page only offers those. The source also changes the entry object in place, which the previous list shares; this aliasing is not modelled.
- FormGenerators.FormGeneratorPage.SetEntryVin: requires an existing index, with the same aliasing caveat.
- Assign.BalanceIsPostedAsNumber: covers whole numbers only, since decimals are not modelled.
