/** The trips page: the trip list loaded from the server, a search box over
    it, a CSV export of every trip and a one-page receipt per trip. */
module Trips {

  import opened Wrappers
  import opened Text
  import opened Js
  import opened Seqs
  import opened Pdf

  // ---------------------------------------------------------------------
  // Loading

  /** The trip list taken from a response body: its `trips` field when that
      is an array, otherwise the body itself. None is the TypeError raised
      by reading `trips` of a null body. */
  function TripList(data: JsVal): (r: Option<JsVal>)
    ensures r.None? <==> Nullish(data)
  {
    match Prop(data, "trips")
    case None => None
    case Some(t) => if t.Arr? then Some(t) else Some(data)
  }

  /** The three shapes a response takes: a bare array is the list itself,
      an object's `trips` array is the list, and an object without one is
      kept whole. */
  lemma TripListShapes(xs: seq<JsVal>, fields: Record)
    ensures TripList(Arr(xs)) == Some(Arr(xs))
    ensures "trips" in fields && fields["trips"].Arr? ==> TripList(Obj(fields)) == Some(fields["trips"])
    ensures ("trips" !in fields || !fields["trips"].Arr?) ==> TripList(Obj(fields)) == Some(Obj(fields))
  {
  }

  // ---------------------------------------------------------------------
  // Search

  /** `v && v.toLowerCase().includes(q)`. */
  predicate LowerHas(v: JsVal, q: string) {
    Truthy(v) && v.Str? && Contains(Lower(v.s), q)
  }

  /** `v && v.toString().includes(q)`. */
  predicate StringHas(v: JsVal, q: string) {
    Truthy(v) && Contains(ToStr(v), q)
  }

  /** A trip on which the search expression does not throw: the fields it
      lowercases are strings whenever they are truthy. */
  predicate Searchable(trip: Record) {
    && (Truthy(Get(trip, "cabNumber")) ==> Get(trip, "cabNumber").Str?)
    && (Truthy(Get(trip, "tripStatus")) ==> Get(trip, "tripStatus").Str?)
    && (Truthy(Get(trip, "_id")) ==> Get(trip, "_id").Str?)
  }

  /** The search test: an empty term passes everything; otherwise the
      lowercased term must occur in the lowercased cab number, trip status
      or id, or in the driver or vehicle id as written. Falsy fields are
      skipped. */
  predicate TripMatches(trip: Record, searchTerm: string) {
    searchTerm == ""
    || (var q := Lower(searchTerm);
        || LowerHas(Get(trip, "cabNumber"), q)
        || StringHas(Get(trip, "driver_id"), q)
        || StringHas(Get(trip, "vehicle_id"), q)
        || LowerHas(Get(trip, "tripStatus"), q)
        || LowerHas(Get(trip, "_id"), q))
  }

  /** `filteredTrips`. */
  function FilterTrips(trips: seq<Record>, searchTerm: string): (r: seq<Record>)
    requires searchTerm != "" ==> forall i :: 0 <= i < |trips| ==> Searchable(trips[i])
    ensures IsSubseq(r, trips)
    ensures forall i :: 0 <= i < |trips| ==> (trips[i] in r <==> TripMatches(trips[i], searchTerm))
    ensures searchTerm == "" ==> r == trips
  {
    var p := (t: Record) => TripMatches(t, searchTerm);
    FilterIsSubseq(trips, p);
    if searchTerm == "" then FilterAll(trips, p); Filter(trips, p) else Filter(trips, p)
  }

  /** A driver id of 0 is falsy and is never searched: the trip with only
      driver id 0 is not found by "0", while driver id 10 is. */
  lemma ZeroDriverIdIsNotSearched()
    ensures !TripMatches(map["driver_id" := Num(0)], "0")
    ensures TripMatches(map["driver_id" := Num(10)], "0")
  {
    assert Lower("0") == "0";
    assert IntToString(10) == "10";
    assert "0" <= "10"[1..];
  }

  // ---------------------------------------------------------------------
  // CSV export

  const CsvPrefix: string := "data:text/csv;charset=utf-8,"

  /** The fourteen column names, in the order the header lists them. */
  const CsvColumns: seq<string> :=
    ["driver_id", "vehicle_id", "cabNumber", "startTime", "endTime", "durationMinutes",
     "pickupLat", "pickupLng", "dropoffLat", "dropoffLng", "distanceMiles", "fare",
     "tripStatus", "createdAt"]

  /** The header line, written out by hand in the source as one literal. */
  const CsvHeaderLine: string :=
    "driver_id" + "," + "vehicle_id" + "," + "cabNumber" + "," + "startTime" + "," +
    "endTime" + "," + "durationMinutes" + "," + "pickupLat" + "," + "pickupLng" + "," +
    "dropoffLat" + "," + "dropoffLng" + "," + "distanceMiles" + "," + "fare" + "," +
    "tripStatus" + "," + "createdAt"

  /** The number of columns the header names and every line has. */
  const CsvWidth := 14

  /** A comma and one more name add that name as the last field. */
  lemma SplitSnocName(a: string, name: string)
    requires ',' !in name
    ensures Split(a + "," + name, ',') == Split(a, ',') + [name]
  {
    SplitConcat(a, ',', name);
    SplitNoSeparator(name, ',');
  }

  /** Four more comma-separated names add four fields. */
  lemma SplitSnocFour(a: string, n1: string, n2: string, n3: string, n4: string)
    requires ',' !in n1 && ',' !in n2 && ',' !in n3 && ',' !in n4
    ensures Split(a + "," + n1 + "," + n2 + "," + n3 + "," + n4, ',') == Split(a, ',') + [n1, n2, n3, n4]
  {
    SplitSnocName(a, n1);
    SplitSnocName(a + "," + n1, n2);
    SplitSnocName(a + "," + n1 + "," + n2, n3);
    SplitSnocName(a + "," + n1 + "," + n2 + "," + n3, n4);
  }

  /** Fourteen comma-free names written out with commas between them split
      back into those names. */
  lemma SplitFourteen(n: seq<string>)
    requires |n| == 14 && forall k :: 0 <= k < 14 ==> ',' !in n[k]
    ensures Split(n[0] + "," + n[1] + "," + n[2] + "," + n[3] + "," + n[4] + "," + n[5] + "," + n[6] + "," +
      n[7] + "," + n[8] + "," + n[9] + "," + n[10] + "," + n[11] + "," + n[12] + "," + n[13], ',') == n
  {
    SplitNoSeparator(n[0], ',');
    var h5 := n[0] + "," + n[1] + "," + n[2] + "," + n[3] + "," + n[4];
    SplitSnocFour(n[0], n[1], n[2], n[3], n[4]);
    var h9 := h5 + "," + n[5] + "," + n[6] + "," + n[7] + "," + n[8];
    SplitSnocFour(h5, n[5], n[6], n[7], n[8]);
    var h13 := h9 + "," + n[9] + "," + n[10] + "," + n[11] + "," + n[12];
    SplitSnocFour(h9, n[9], n[10], n[11], n[12]);
    SplitSnocName(h13, n[13]);
    assert [n[0]] + [n[1], n[2], n[3], n[4]] + [n[5], n[6], n[7], n[8]] + [n[9], n[10], n[11], n[12]] + [n[13]] == n;
  }

  /** No column name holds a comma. */
  lemma ColumnsHaveNoComma()
    ensures forall k :: 0 <= k < |CsvColumns| ==> ',' !in CsvColumns[k]
  {
  }

  /** Split at commas, the header gives the fourteen column names. */
  lemma HeaderNamesColumns()
    ensures Split(CsvHeaderLine, ',') == CsvColumns
    ensures |CsvColumns| == CsvWidth
  {
    ColumnsHaveNoComma();
    SplitFourteen(CsvColumns);
  }

  /** Whether column k is one of the four coordinates, read with `?.` from
      the pickup or drop-off location. */
  predicate IsCoordinate(k: int) {
    6 <= k <= 9
  }

  /** The value read for each column, before any `|| ""`. */
  function CsvSource(trip: Record): (vs: seq<JsVal>)
    ensures |vs| == CsvWidth
    ensures forall k :: 0 <= k < CsvWidth && !IsCoordinate(k) ==> vs[k] == Get(trip, CsvColumns[k])
    ensures vs[6] == OptProp(Get(trip, "pickupLocation"), "lat") && vs[7] == OptProp(Get(trip, "pickupLocation"), "lng")
    ensures vs[8] == OptProp(Get(trip, "dropoffLocation"), "lat") && vs[9] == OptProp(Get(trip, "dropoffLocation"), "lng")
  {
    [Get(trip, "driver_id"), Get(trip, "vehicle_id"), Get(trip, "cabNumber"), Get(trip, "startTime"),
     Get(trip, "endTime"), Get(trip, "durationMinutes"),
     OptProp(Get(trip, "pickupLocation"), "lat"), OptProp(Get(trip, "pickupLocation"), "lng"),
     OptProp(Get(trip, "dropoffLocation"), "lat"), OptProp(Get(trip, "dropoffLocation"), "lng"),
     Get(trip, "distanceMiles"), Get(trip, "fare"), Get(trip, "tripStatus"), Get(trip, "createdAt")]
  }

  /** The columns written as `value || ""`: end time, duration, the four
      coordinates, distance and fare. */
  predicate DefaultsToEmpty(k: int) {
    4 <= k <= 11
  }

  /** The values joined into one CSV line. */
  function CsvValues(trip: Record): (vs: seq<JsVal>)
    ensures |vs| == CsvWidth
  {
    var src := CsvSource(trip);
    seq(|src|, k requires 0 <= k < |src| => if DefaultsToEmpty(k) then Or(src[k], Str("")) else src[k])
  }

  /** The text of each cell of a trip's line. */
  function CsvCells(trip: Record): seq<string> {
    var vs := CsvValues(trip);
    seq(|vs|, k requires 0 <= k < |vs| => JoinField(vs[k]))
  }

  /** One CSV line: the fourteen cells joined by commas, with no quoting. */
  function CsvRow(trip: Record): string {
    JoinValues(CsvValues(trip), ",")
  }

  /** Every cell is the column's value as a string, except that a missing
      value is empty and, in the `|| ""` columns, so is every falsy value,
      0 included. */
  lemma CsvCellsMeaning(trip: Record)
    ensures |CsvCells(trip)| == CsvWidth
    ensures forall k :: 0 <= k < CsvWidth && DefaultsToEmpty(k) ==>
      CsvCells(trip)[k] == (if Truthy(CsvSource(trip)[k]) then ToStr(CsvSource(trip)[k]) else "")
    ensures forall k :: 0 <= k < CsvWidth && !DefaultsToEmpty(k) ==>
      CsvCells(trip)[k] == (if Nullish(CsvSource(trip)[k]) then "" else ToStr(CsvSource(trip)[k]))
  {
  }

  /** Every cell other than the four coordinates holds the trip field the
      header names above it: as `join` renders it, after `|| ""` in the
      defaulted columns. */
  lemma CellsUnderHeader(trip: Record)
    ensures |Split(CsvHeaderLine, ',')| == CsvWidth
    ensures forall k :: 0 <= k < CsvWidth && !DefaultsToEmpty(k) ==>
      CsvCells(trip)[k] == JoinField(Get(trip, Split(CsvHeaderLine, ',')[k]))
    ensures forall k :: 0 <= k < CsvWidth && DefaultsToEmpty(k) && !IsCoordinate(k) ==>
      CsvCells(trip)[k] == JoinField(Or(Get(trip, Split(CsvHeaderLine, ',')[k]), Str("")))
  {
    HeaderNamesColumns();
    forall k | 0 <= k < CsvWidth && !IsCoordinate(k)
      ensures CsvCells(trip)[k] == JoinField(CsvValues(trip)[k])
      ensures CsvSource(trip)[k] == Get(trip, Split(CsvHeaderLine, ',')[k])
    {
    }
  }

  /** A duration of 0 is exported as an empty cell, a driver id of 0 as "0". */
  lemma ZeroDurationExportsEmpty(trip: Record)
    requires Get(trip, "durationMinutes") == Num(0) && Get(trip, "driver_id") == Num(0)
    ensures CsvCells(trip)[5] == "" && CsvCells(trip)[0] == "0"
  {
    CsvCellsMeaning(trip);
    assert IntToString(0) == "0";
  }

  /** The exported file: the data-URI prefix, the header, then one line per
      trip, each line ended by a newline. */
  function CsvText(trips: seq<Record>): string {
    CsvPrefix + CsvHeaderLine + "\n" + Lines(CsvRows(trips))
  }

  function CsvRows(trips: seq<Record>): seq<string> {
    Map(trips, CsvRow)
  }

  /** One more trip adds its line at the end of the file. */
  lemma CsvTextSnoc(trips: seq<Record>, trip: Record)
    ensures CsvText(trips + [trip]) == CsvText(trips) + CsvRow(trip) + "\n"
  {
    MapSnoc(trips, trip, CsvRow);
    LinesSnoc(CsvRows(trips), CsvRow(trip));
  }

  /** Split at commas, a line gives back its fourteen cells, as long as no
      cell holds a comma. */
  lemma CsvRowFields(trip: Record)
    requires forall k :: 0 <= k < |CsvCells(trip)| ==> ',' !in CsvCells(trip)[k]
    ensures Split(CsvRow(trip), ',') == CsvCells(trip)
  {
    SplitJoin(CsvCells(trip), ',');
  }

  lemma PrefixHasNoNewline()
    ensures '\n' !in CsvPrefix
  {
  }

  lemma HeaderHasNoNewline()
    ensures '\n' !in CsvHeaderLine
  {
  }

  /** Read back line by line, the file is the prefixed header, one line per
      trip in order, and an empty last line, provided no cell holds a
      newline. */
  lemma CsvLines(trips: seq<Record>)
    requires forall i :: 0 <= i < |trips| ==> '\n' !in CsvRow(trips[i])
    ensures Split(CsvText(trips), '\n') == [CsvPrefix + CsvHeaderLine] + CsvRows(trips) + [""]
  {
    PrefixHasNoNewline();
    HeaderHasNoNewline();
    SplitLines(CsvPrefix + CsvHeaderLine, CsvRows(trips));
  }

  // ---------------------------------------------------------------------
  // Receipt

  /** The twelve receipt lines. `localeString` renders a timestamp as
      `new Date(v).toLocaleString()` would. */
  function ReceiptLines(trip: Record, localeString: JsVal -> string): (lines: seq<string>)
    ensures |lines| == 12
  {
    var pickup := Get(trip, "pickupLocation");
    var dropoff := Get(trip, "dropoffLocation");
    var endTime := Get(trip, "endTime");
    ["Driver ID: " + ToStr(Get(trip, "driver_id")),
     "Vehicle ID: " + ToStr(Get(trip, "vehicle_id")),
     "Cab Number: " + ToStr(Get(trip, "cabNumber")),
     "Start Time: " + localeString(Get(trip, "startTime")),
     "End Time: " + (if Truthy(endTime) then localeString(endTime) else "N/A"),
     "Duration: " + ToStr(Or(Get(trip, "durationMinutes"), Num(0))) + " minutes",
     "Pickup Location: " + ToStr(OptProp(pickup, "lat")) + ", " + ToStr(OptProp(pickup, "lng")),
     "Dropoff Location: " + ToStr(OptProp(dropoff, "lat")) + ", " + ToStr(OptProp(dropoff, "lng")),
     "Distance: " + ToStr(Or(Get(trip, "distanceMiles"), Num(0))) + " mi",
     "Fare: $" + ToStr(Or(Get(trip, "fare"), Num(0))),
     "Status: " + ToStr(Get(trip, "tripStatus")),
     "Created At: " + localeString(Get(trip, "createdAt"))]
  }

  const ReceiptTitle: TextCmd := TextCmd("Trip Receipt", 20, 20)

  /** Everything drawn on a receipt: the title, then the lines from y = 35
      in steps of 10. */
  function ReceiptCommands(trip: Record, localeString: JsVal -> string): seq<TextCmd> {
    [ReceiptTitle] + Column(ReceiptLines(trip, localeString), 20, 35, 10)
  }

  function ReceiptFileName(trip: Record): string {
    "trip-receipt-" + ToStr(Get(trip, "_id")) + ".pdf"
  }

  /** The receipt is the title at (20, 20) and exactly twelve lines, line i
      at (20, 35 + 10 i), each below the one before. */
  lemma ReceiptLayout(trip: Record, localeString: JsVal -> string)
    ensures var cmds := ReceiptCommands(trip, localeString);
      && |cmds| == 13
      && cmds[0] == TextCmd("Trip Receipt", 20, 20)
      && (forall i :: 0 <= i < 12 ==> cmds[i + 1] == TextCmd(ReceiptLines(trip, localeString)[i], 20, 35 + 10 * i))
      && TopToBottom(cmds)
  {
    var lines := ReceiptLines(trip, localeString);
    var cmds := ReceiptCommands(trip, localeString);
    ColumnTopToBottom(lines, 20, 35, 10);
    forall i, j | 0 <= i < j < |cmds|
      ensures cmds[i].y < cmds[j].y
    {
      if i > 0 {
        assert cmds[i] == Column(lines, 20, 35, 10)[i - 1];
      }
    }
  }

  /** Missing duration, distance and fare print as 0; a missing end time
      prints as "N/A". */
  lemma ReceiptDefaults(trip: Record, localeString: JsVal -> string)
    requires !Truthy(Get(trip, "durationMinutes")) && !Truthy(Get(trip, "distanceMiles"))
    requires !Truthy(Get(trip, "fare")) && !Truthy(Get(trip, "endTime"))
    ensures ReceiptLines(trip, localeString)[4] == "End Time: N/A"
    ensures ReceiptLines(trip, localeString)[5] == "Duration: " + "0" + " minutes"
    ensures ReceiptLines(trip, localeString)[8] == "Distance: " + "0" + " mi"
    ensures ReceiptLines(trip, localeString)[9] == "Fare: $" + "0"
  {
    assert ToStr(Num(0)) == "0";
  }

  /** `generateReceipt`: a new document with the title and the twelve
      lines, saved as `trip-receipt-<_id>.pdf`. */
  method GenerateReceipt(trip: Record, localeString: JsVal -> string) returns (doc: PdfDoc)
    ensures fresh(doc)
    ensures doc.commands == ReceiptCommands(trip, localeString)
    ensures doc.savedAs == Some(ReceiptFileName(trip))
  {
    doc := new PdfDoc();
    doc.Text("Trip Receipt", 20, 20);
    var lines := ReceiptLines(trip, localeString);
    doc.TextColumn(lines, 20, 35, 10);
    doc.Save("trip-receipt-" + ToStr(Get(trip, "_id")) + ".pdf");
  }

  // ---------------------------------------------------------------------
  // The page

  class TripsPage {
    var trips: JsVal
    var searchTerm: string

    constructor ()
      ensures trips == Arr([]) && searchTerm == ""
    {
      trips := Arr([]);
      searchTerm := "";
    }

    /** `fetchTrips` with the parsed response body, or None when the request
        or the parse failed. A failure, or a null body, leaves the list as
        it was. */
    method FetchTrips(data: Option<JsVal>)
      modifies this
      ensures data.Some? && !Nullish(data.value) ==> trips == TripList(data.value).value
      ensures data.None? || Nullish(data.value) ==> trips == old(trips)
      ensures searchTerm == old(searchTerm)
    {
      if data.Some? {
        var allTrips := TripList(data.value);
        if allTrips.Some? {
          trips := allTrips.value;
        }
      }
    }

    /** The rows shown in the table. */
    function FilteredTrips(): (r: seq<Record>)
      reads this
      requires IsRecordList(trips)
      requires searchTerm != "" ==> forall i :: 0 <= i < |Records(trips)| ==> Searchable(Records(trips)[i])
      ensures r == FilterTrips(Records(trips), searchTerm)
    {
      FilterTrips(Records(trips), searchTerm)
    }

    /** `downloadCSV`: the file is built from every loaded trip, whatever
        the search term. */
    method DownloadCsv() returns (csv: string)
      requires IsRecordList(trips)
      ensures csv == CsvText(Records(trips))
    {
      var all := Records(trips);
      csv := CsvPrefix;
      csv := csv + CsvHeaderLine + "\n";
      assert all[..0] == [];
      var i := 0;
      while i < |all|
        invariant 0 <= i <= |all|
        invariant csv == CsvText(all[..i])
      {
        var trip := all[i];
        var row := JoinValues(CsvValues(trip), ",");
        assert all[..i + 1] == all[..i] + [trip];
        CsvTextSnoc(all[..i], trip);
        csv := csv + row + "\n";
        i := i + 1;
      }
      assert all[..i] == all;
    }
  }
}
