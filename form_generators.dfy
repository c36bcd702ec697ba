/** The form generator page: four fixed letters (adding a cab to the
    insurance policy, requesting an airport AVI tag, asking for AVI tag
    refunds, removing a driver and cab from the policy) drawn as text on a
    PDF with a common footer, plus the list of refund entries the refund
    letter enumerates. */
module FormGenerators {

  import opened Wrappers
  import opened Js
  import opened Seqs
  import opened Pdf

  // ---------------------------------------------------------------------
  // Looking up the driver of a cab

  /** `v.cabNumber === cab`; None is the TypeError of a null vehicle. */
  function HasCab(v: JsVal, cab: string): (r: Option<bool>)
    ensures r.None? <==> Nullish(v)
    ensures r == Some(true) <==> v.Obj? && Get(v.fields, "cabNumber") == Str(cab)
  {
    match Prop(v, "cabNumber")
    case None => None
    case Some(c) => Some(StrictEq(c, Str(cab)))
  }

  function CabIs(cab: string): JsVal -> Option<bool> {
    v => HasCab(v, cab)
  }

  /** `d.driver_id === id`. */
  function HasDriverId(d: JsVal, id: JsVal): (r: Option<bool>)
    ensures r.None? <==> Nullish(d)
    ensures r == Some(true) <==> !Nullish(d) && StrictEq(OptProp(d, "driver_id"), id)
  {
    match Prop(d, "driver_id")
    case None => None
    case Some(x) => Some(StrictEq(x, id))
  }

  function DriverIdIs(id: JsVal): JsVal -> Option<bool> {
    d => HasDriverId(d, id)
  }

  /** `vehicles.find(v => v.cabNumber === cab)`: the vehicle, or undefined
      when none has the cab number. None is a TypeError (the list is not an
      array, or a null row is reached). */
  function VehicleOfCab(vehicles: JsVal, cab: string): (r: Option<JsVal>)
    ensures r.Some? && r.value != Undef ==> vehicles.Arr? && r.value in vehicles.items && r.value.Obj? && Get(r.value.fields, "cabNumber") == Str(cab)
    ensures IsRecordList(vehicles) ==> r.Some?
    ensures IsRecordList(vehicles) && r == Some(Undef) ==> forall v :: v in vehicles.items ==> Get(v.fields, "cabNumber") != Str(cab)
    ensures IsRecordList(vehicles) ==>
      var k := FindIndex(vehicles.items, Passes(CabIs(cab)));
      0 <= k ==> r == Some(vehicles.items[k])
  {
    if !vehicles.Arr? then None
    else match TryFind(vehicles.items, CabIs(cab))
      case None => None
      case Some(found) => Some(found.GetOr(Undef))
  }

  /** `getDriverByCab`: the first driver whose `driver_id` is the found
      vehicle's `vehicle_id`, or `{}`. When no vehicle has the cab number
      the id compared against is undefined, so a driver without a
      `driver_id` is returned. */
  function DriverByCab(drivers: JsVal, vehicles: JsVal, cab: string): (r: Option<JsVal>)
    ensures r.Some? ==> Truthy(r.value)
  {
    match VehicleOfCab(vehicles, cab)
    case None => None
    case Some(v) =>
      if !drivers.Arr? then None
      else match TryFind(drivers.items, DriverIdIs(OptProp(v, "vehicle_id")))
        case None => None
        case Some(d) => Some(Or(d.GetOr(Undef), Obj(map[])))
  }

  /** Over lists of records the lookup never throws. */
  lemma DriverByCabTotal(drivers: JsVal, vehicles: JsVal, cab: string)
    requires IsRecordList(drivers) && IsRecordList(vehicles)
    ensures DriverByCab(drivers, vehicles, cab).Some?
  {
    var v := VehicleOfCab(vehicles, cab).value;
    var p := DriverIdIs(OptProp(v, "vehicle_id"));
    assert forall i :: 0 <= i < |drivers.items| ==> p(drivers.items[i]).Some?;
  }

  /** Over lists of records the lookup answers `{}` unless it found a
      driver. The driver found either has the `driver_id` of the first
      vehicle with the cab number, or, when no vehicle has it, has no
      `driver_id` at all. */
  lemma DriverByCabCases(drivers: JsVal, vehicles: JsVal, cab: string)
    requires IsRecordList(drivers) && IsRecordList(vehicles)
    ensures DriverByCab(drivers, vehicles, cab).Some?
    ensures var d := DriverByCab(drivers, vehicles, cab).value;
      var v := VehicleOfCab(vehicles, cab).value;
      d == Obj(map[]) || (
        && d in drivers.items
        && (v != Undef ==> StrictEq(Get(d.fields, "driver_id"), Get(v.fields, "vehicle_id")))
        && (v == Undef ==> Get(d.fields, "driver_id") == Undef))
    ensures var d := DriverByCab(drivers, vehicles, cab).value;
      var k := FindIndex(drivers.items, Passes(DriverIdIs(OptProp(VehicleOfCab(vehicles, cab).value, "vehicle_id"))));
      && (0 <= k ==> d == drivers.items[k])
      && (k < 0 ==> d == Obj(map[]))
  {
    DriverByCabTotal(drivers, vehicles, cab);
    var v := VehicleOfCab(vehicles, cab).value;
    var id := OptProp(v, "vehicle_id");
    var found := TryFind(drivers.items, DriverIdIs(id));
    assert found.Some?;
    var d := DriverByCab(drivers, vehicles, cab).value;
    if found.value.Some? {
      assert d == found.value.value;
      assert d in drivers.items;
      assert HasDriverId(d, id) == Some(true);
    } else {
      assert d == Obj(map[]);
    }
  }

  /** With no vehicle for the cab, a driver lacking `driver_id` is picked. */
  lemma NoVehiclePicksDriverWithoutId(driver: Record, cab: string)
    requires "driver_id" !in driver
    ensures DriverByCab(Arr([Obj(driver)]), Arr([]), cab) == Some(Obj(driver))
  {
    assert DriverIdIs(Undef)(Obj(driver)) == Some(true);
  }

  // ---------------------------------------------------------------------
  // Letters

  /** `${v?.k}` for the looked-up driver or vehicle: a missing record or
      field prints as "undefined". */
  function Field(v: JsVal, k: string): string {
    ToStr(OptProp(v, k))
  }

  /** The bullet and the en dash of a refund line. */
  const Bullet: char := '\U{2022}'
  const Dash: char := '\U{2013}'

  // The sentences of the letters. Each is defined once and used both by
  // the functions that describe a letter and by the methods that draw it.
  // Long literals are written as a few concatenated pieces because the
  // verifier's work on a string literal grows with its length.

  const DearTeam: string := "Dear Team,"
  const Sincerely: string := "Sincerely,"

  function InsuranceAddLine(cab: string, date: string): string {
    ("We kindly " + "request that " + "you add Cab #") + cab + (" to our " + "insurance " + "policy, " + "effective ") + date + "."
  }

  const InsuranceSendTo: string :=
    "Please send the " + "updated " + "Insurance " + "Certificate and " + "Vehicle " + "Schedule to: " + "gtinsurance@" + "flydenver.com"

  const AviOffice: string := "To: AVI Sales " + "Office"
  const AviAirport: string := "Denver " + "International " + "Airport"
  const AviPhone: string := "Phone: " + "303-342-4053"
  const DearAviStaff: string := "Dear AVI Staff,"
  const AviTagRequest: string := "We kindly " + "request a " + "Credential and " + "AVI Tag for:"

  function DriverNameLine(driver: JsVal): string {
    "Driver Name: " + Field(driver, "firstName") + " " + Field(driver, "lastName")
  }

  function CabLine(cab: string): string {
    "Cab #: " + cab
  }

  function VinLine(vehicle: JsVal): string {
    "VIN #: " + Field(vehicle, "vinNumber")
  }

  function MakeModelLine(vehicle: JsVal): string {
    "Make/Model: " + Field(vehicle, "make") + " " + Field(vehicle, "model")
  }

  function PlateLine(vehicle: JsVal): string {
    "License Plate: " + Field(vehicle, "lic_plate")
  }

  const ThankYou: string := "Thank you,"

  const RefundRequest: string := "We kindly " + "request the AVI " + "Tag refund for " + "the following " + "vehicles:"

  function RemoveLine(date: string): string {
    ("Please remove " + "the following " + "driver and " + "vehicle from " + "our policy " + "effective ") + date + ":"
  }

  const RemoveSendTo: string :=
    "Please send the " + "updated " + "Insurance " + "Certificate to " + "gtinsurance@" + "flydenver.com"

  const InvalidSelection: string := "Invalid form " + "selection"

  function InsuranceBody(cab: string, date: string): seq<TextCmd> {
    [TextCmd(DearTeam, 10, 20),
     TextCmd(InsuranceAddLine(cab, date), 10, 30),
     TextCmd(InsuranceSendTo, 10, 40),
     TextCmd(Sincerely, 10, 60)]
  }

  /** `driver` is the looked-up driver, `vehicle` the vehicle with the cab
      number or undefined; absent values print as "undefined". */
  function AviRequestBody(driver: JsVal, vehicle: JsVal, cab: string): seq<TextCmd> {
    AviRequestHeader() + AviRequestDetails(driver, vehicle, cab)
  }

  /** The addressee and the salutation. */
  function AviRequestHeader(): seq<TextCmd> {
    [TextCmd(AviOffice, 10, 20),
     TextCmd(AviAirport, 10, 26),
     TextCmd(AviPhone, 10, 32),
     TextCmd("", 10, 38),
     TextCmd(DearAviStaff, 10, 44),
     TextCmd(AviTagRequest, 10, 52)]
  }

  /** The driver and the vehicle the tag is for, and the closing. */
  function AviRequestDetails(driver: JsVal, vehicle: JsVal, cab: string): seq<TextCmd> {
    [TextCmd(DriverNameLine(driver), 10, 62),
     TextCmd(CabLine(cab), 10, 68),
     TextCmd(VinLine(vehicle), 10, 74),
     TextCmd(MakeModelLine(vehicle), 10, 80),
     TextCmd(PlateLine(vehicle), 10, 86),
     TextCmd("", 10, 94),
     TextCmd(ThankYou, 10, 100)]
  }

  /** One entry of the refund list. */
  datatype RefundEntry = RefundEntry(cab: string, vin: string)

  const BlankEntry: RefundEntry := RefundEntry("", "")

  function RefundLine(e: RefundEntry): string {
    [Bullet] + " Cab #" + e.cab + " " + [Dash] + (" Last 6 digits " + "of VIN: ") + e.vin
  }

  /** The refund letter: entry i at y = 40 + 8 i, then a blank line and the
      closing. */
  function AviRefundBody(entries: seq<RefundEntry>): seq<TextCmd> {
    [TextCmd(DearTeam, 10, 20),
     TextCmd(RefundRequest, 10, 30)]
    + Column(Map(entries, RefundLine), 10, 40, 8)
    + [TextCmd("", 10, 50 + |entries| * 8),
       TextCmd(Sincerely, 10, 60 + |entries| * 8)]
  }

  function InsuranceRemoveBody(driver: JsVal, vehicle: JsVal, cab: string, date: string): seq<TextCmd> {
    [TextCmd(DearTeam, 10, 20),
     TextCmd(RemoveLine(date), 10, 30),
     TextCmd(DriverNameLine(driver), 10, 40),
     TextCmd(CabLine(cab), 10, 46),
     TextCmd(VinLine(vehicle), 10, 52),
     TextCmd(RemoveSendTo, 10, 62),
     TextCmd(Sincerely, 10, 72)]
  }

  const InvalidBody: seq<TextCmd> := [TextCmd(InvalidSelection, 10, 20)]

  /** The letter selected by the form type. */
  function Body(formType: string, cab: string, date: string, entries: seq<RefundEntry>, driver: JsVal, vehicle: JsVal): seq<TextCmd> {
    if formType == "insurance" then InsuranceBody(cab, date)
    else if formType == "avi-request" then AviRequestBody(driver, vehicle, cab)
    else if formType == "avi-refund" then AviRefundBody(entries)
    else if formType == "insurance-remove" then InsuranceRemoveBody(driver, vehicle, cab, date)
    else InvalidBody
  }

  /** The company's address block, drawn at x = 10 from y = 280 in steps
      of 6 under every letter. */
  function FooterLines(): seq<string> {
    ["Trans Voyage Taxi",
     ("1450 S. Havana " + "St, Ste# 712"),
     "Aurora, CO 80012",
     ("Phone: (303) " + "353-4482"),
     ("Email: " + "info@" + "transvoyagetaxi.com")]
  }

  function Footer(): seq<TextCmd> {
    Column(FooterLines(), 10, 280, 6)
  }

  /** Everything drawn for a form type. */
  function Document(formType: string, cab: string, date: string, entries: seq<RefundEntry>, driver: JsVal, vehicle: JsVal): seq<TextCmd> {
    Body(formType, cab, date, entries, driver, vehicle) + Footer()
  }

  function FileName(formType: string): string {
    formType + "_form.pdf"
  }

  /** Every document ends with the same five footer lines at x = 10 and
      y = 280, 286, 292, 298, 304. */
  lemma FooterIsFixed(formType: string, cab: string, date: string, entries: seq<RefundEntry>, driver: JsVal, vehicle: JsVal)
    ensures var doc := Document(formType, cab, date, entries, driver, vehicle);
      && |doc| >= 5
      && doc[|doc| - 5..] == Footer()
      && forall i :: 0 <= i < 5 ==> doc[|doc| - 5 + i] == TextCmd(FooterLines()[i], 10, 280 + 6 * i)
  {
    var body := Body(formType, cab, date, entries, driver, vehicle);
    var doc := body + Footer();
    assert doc[|doc| - 5..] == Footer();
  }

  /** A refund letter for n entries has n + 4 body lines: entry i at
      (10, 40 + 8 i), a blank line at 50 + 8 n and "Sincerely," at
      60 + 8 n. */
  lemma RefundLayout(entries: seq<RefundEntry>)
    ensures var body := AviRefundBody(entries);
      var n := |entries|;
      && |body| == n + 4
      && (forall i :: 0 <= i < n ==> body[2 + i] == TextCmd(RefundLine(entries[i]), 10, 40 + 8 * i))
      && body[n + 2] == TextCmd("", 10, 50 + 8 * n)
      && body[n + 3] == TextCmd("Sincerely,", 10, 60 + 8 * n)
  {
    var n := |entries|;
    var column := Column(Map(entries, RefundLine), 10, 40, 8);
    var head := AviRefundBody(entries)[..2];
    var tail := [TextCmd("", 10, 50 + n * 8), TextCmd("Sincerely,", 10, 60 + n * 8)];
    var body := AviRefundBody(entries);
    assert body == head + column + tail;
    forall i | 0 <= i < n
      ensures body[2 + i] == TextCmd(RefundLine(entries[i]), 10, 40 + 8 * i)
    {
      assert body[2 + i] == column[i];
    }
    assert body[n + 2] == tail[0];
    assert body[n + 3] == tail[1];
  }

  /** The y-coordinate of line k of a refund letter with n entries,
      footer included. */
  function RefundY(k: int, n: int): int {
    if k < 2 then 20 + 10 * k
    else if k < n + 2 then 40 + 8 * (k - 2)
    else if k < n + 4 then 50 + 8 * n + 10 * (k - n - 2)
    else 280 + 6 * (k - n - 4)
  }

  lemma RefundDocumentYs(entries: seq<RefundEntry>, cab: string, date: string, driver: JsVal, vehicle: JsVal)
    ensures var doc := Document("avi-refund", cab, date, entries, driver, vehicle);
      && |doc| == |entries| + 9
      && forall k :: 0 <= k < |doc| ==> doc[k].y == RefundY(k, |entries|)
  {
    var n := |entries|;
    var body := AviRefundBody(entries);
    var doc := Document("avi-refund", cab, date, entries, driver, vehicle);
    RefundLayout(entries);
    assert doc == body + Footer();
    forall k | 0 <= k < |doc|
      ensures doc[k].y == RefundY(k, n)
    {
      if k < n + 4 {
        assert doc[k] == body[k];
        if 2 <= k < n + 2 {
          assert body[2 + (k - 2)].y == 40 + 8 * (k - 2);
        }
      } else {
        assert doc[k] == Footer()[k - n - 4];
      }
    }
  }

  /** An unknown form type gives the single line "Invalid form selection"
      at (10, 20) above the footer. */
  lemma UnknownFormType(formType: string, cab: string, date: string, entries: seq<RefundEntry>, driver: JsVal, vehicle: JsVal)
    requires formType !in {"insurance", "avi-request", "avi-refund", "insurance-remove"}
    ensures Document(formType, cab, date, entries, driver, vehicle) == [TextCmd(("Invalid form " + "selection"), 10, 20)] + Footer()
  {
  }

  /** The insurance letter is four lines, the second naming the cab and
      the effective date. */
  lemma InsuranceLetter(cab: string, date: string, entries: seq<RefundEntry>, driver: JsVal, vehicle: JsVal)
    ensures var body := Body("insurance", cab, date, entries, driver, vehicle);
      && |body| == 4
      && body[1].text == ("We kindly " + "request that " + "you add Cab #") + cab + (" to our " + "insurance " + "policy, " + "effective ") + date + "."
      && body[0].y == 20 && body[1].y == 30 && body[2].y == 40 && body[3].y == 60
  {
  }

  /** The refund letter stays above the footer exactly while it has at most
      27 entries; from the 28th entry on its closing lines run into the
      footer. */
  lemma RefundFitsAboveFooter(entries: seq<RefundEntry>, cab: string, date: string, driver: JsVal, vehicle: JsVal)
    ensures TopToBottom(Document("avi-refund", cab, date, entries, driver, vehicle)) <==> |entries| <= 27
  {
    var n := |entries|;
    var doc := Document("avi-refund", cab, date, entries, driver, vehicle);
    RefundDocumentYs(entries, cab, date, driver, vehicle);
    if n <= 27 {
      forall i, j | 0 <= i < j < |doc|
        ensures doc[i].y < doc[j].y
      {
        assert RefundY(i, n) < RefundY(j, n);
      }
    } else {
      assert doc[n + 3].y == RefundY(n + 3, n) == 60 + 8 * n;
      assert doc[n + 4].y == RefundY(n + 4, n) == 280;
    }
  }

  // ---------------------------------------------------------------------
  // Drawing the letters, one `doc.text` call per line

  method DrawInsurance(doc: PdfDoc, cab: string, date: string)
    modifies doc
    ensures doc.commands == old(doc.commands) + InsuranceBody(cab, date)
    ensures doc.savedAs == old(doc.savedAs)
  {
    doc.Text(DearTeam, 10, 20);
    doc.Text(InsuranceAddLine(cab, date), 10, 30);
    doc.Text(InsuranceSendTo, 10, 40);
    doc.Text(Sincerely, 10, 60);
  }

  method DrawAviRequest(doc: PdfDoc, driver: JsVal, vehicle: JsVal, cab: string)
    modifies doc
    ensures doc.commands == old(doc.commands) + AviRequestBody(driver, vehicle, cab)
    ensures doc.savedAs == old(doc.savedAs)
  {
    DrawAviRequestHeader(doc);
    DrawAviRequestDetails(doc, driver, vehicle, cab);
  }

  method DrawAviRequestHeader(doc: PdfDoc)
    modifies doc
    ensures doc.commands == old(doc.commands) + AviRequestHeader()
    ensures doc.savedAs == old(doc.savedAs)
  {
    doc.Text(AviOffice, 10, 20);
    doc.Text(AviAirport, 10, 26);
    doc.Text(AviPhone, 10, 32);
    doc.Text("", 10, 38);
    doc.Text(DearAviStaff, 10, 44);
    doc.Text(AviTagRequest, 10, 52);
  }

  method DrawAviRequestDetails(doc: PdfDoc, driver: JsVal, vehicle: JsVal, cab: string)
    modifies doc
    ensures doc.commands == old(doc.commands) + AviRequestDetails(driver, vehicle, cab)
    ensures doc.savedAs == old(doc.savedAs)
  {
    doc.Text(DriverNameLine(driver), 10, 62);
    doc.Text(CabLine(cab), 10, 68);
    doc.Text(VinLine(vehicle), 10, 74);
    doc.Text(MakeModelLine(vehicle), 10, 80);
    doc.Text(PlateLine(vehicle), 10, 86);
    doc.Text("", 10, 94);
    doc.Text(ThankYou, 10, 100);
  }

  /** The entries are drawn by a `forEach` over the list. */
  method DrawAviRefund(doc: PdfDoc, entries: seq<RefundEntry>)
    modifies doc
    ensures doc.commands == old(doc.commands) + AviRefundBody(entries)
    ensures doc.savedAs == old(doc.savedAs)
  {
    doc.Text(DearTeam, 10, 20);
    doc.Text(RefundRequest, 10, 30);
    doc.TextColumn(Map(entries, RefundLine), 10, 40, 8);
    doc.Text("", 10, 50 + |entries| * 8);
    doc.Text(Sincerely, 10, 60 + |entries| * 8);
  }

  method DrawInsuranceRemove(doc: PdfDoc, driver: JsVal, vehicle: JsVal, cab: string, date: string)
    modifies doc
    ensures doc.commands == old(doc.commands) + InsuranceRemoveBody(driver, vehicle, cab, date)
    ensures doc.savedAs == old(doc.savedAs)
  {
    doc.Text(DearTeam, 10, 20);
    doc.Text(RemoveLine(date), 10, 30);
    doc.Text(DriverNameLine(driver), 10, 40);
    doc.Text(CabLine(cab), 10, 46);
    doc.Text(VinLine(vehicle), 10, 52);
    doc.Text(RemoveSendTo, 10, 62);
    doc.Text(Sincerely, 10, 72);
  }

  /** The `switch (formType)` of `generatePDF`. */
  method DrawBody(doc: PdfDoc, formType: string, cab: string, date: string, entries: seq<RefundEntry>, driver: JsVal, vehicle: JsVal)
    modifies doc
    ensures doc.commands == old(doc.commands) + Body(formType, cab, date, entries, driver, vehicle)
    ensures doc.savedAs == old(doc.savedAs)
  {
    if formType == "insurance" {
      DrawInsurance(doc, cab, date);
    } else if formType == "avi-request" {
      DrawAviRequest(doc, driver, vehicle, cab);
    } else if formType == "avi-refund" {
      DrawAviRefund(doc, entries);
    } else if formType == "insurance-remove" {
      DrawInsuranceRemove(doc, driver, vehicle, cab, date);
    } else {
      doc.Text(InvalidSelection, 10, 20);
    }
  }

  // ---------------------------------------------------------------------
  // The page

  class FormGeneratorPage {
    var formType: string
    var cabNumber: string
    var drivers: JsVal
    var vehicles: JsVal
    var effectiveDate: string
    var refundEntries: seq<RefundEntry>

    /** The insurance letter, nothing selected, and one blank refund entry. */
    constructor ()
      ensures formType == "insurance" && cabNumber == "" && effectiveDate == ""
      ensures drivers == Arr([]) && vehicles == Arr([])
      ensures refundEntries == [BlankEntry]
    {
      formType := "insurance";
      cabNumber := "";
      drivers := Arr([]);
      vehicles := Arr([]);
      effectiveDate := "";
      refundEntries := [BlankEntry];
    }

    /** `fetchData` with the two response bodies (None for a failed
        request). Both requests are made before either list is set; a
        null drivers body stops everything, a null vehicles body stops
        after the drivers are set. */
    method FetchData(driversData: Option<JsVal>, vehiclesData: Option<JsVal>)
      modifies this
      ensures var stored := driversData.Some? && vehiclesData.Some? && !Nullish(driversData.value);
        && drivers == (if stored then OptProp(driversData.value, "drivers") else old(drivers))
        && vehicles == (if stored && !Nullish(vehiclesData.value) then OptProp(vehiclesData.value, "vehicles") else old(vehicles))
      ensures formType == old(formType) && cabNumber == old(cabNumber)
      ensures effectiveDate == old(effectiveDate) && refundEntries == old(refundEntries)
    {
      if driversData.Some? && vehiclesData.Some? {
        var d := Prop(driversData.value, "drivers");
        if d.Some? {
          drivers := d.value;
          var v := Prop(vehiclesData.value, "vehicles");
          if v.Some? {
            vehicles := v.value;
          }
        }
      }
    }

    method SetFormType(value: string)
      modifies this
      ensures formType == value
      ensures cabNumber == old(cabNumber) && effectiveDate == old(effectiveDate)
      ensures drivers == old(drivers) && vehicles == old(vehicles) && refundEntries == old(refundEntries)
    {
      formType := value;
    }

    method SetCabNumber(value: string)
      modifies this
      ensures cabNumber == value
      ensures formType == old(formType) && effectiveDate == old(effectiveDate)
      ensures drivers == old(drivers) && vehicles == old(vehicles) && refundEntries == old(refundEntries)
    {
      cabNumber := value;
    }

    method SetEffectiveDate(value: string)
      modifies this
      ensures effectiveDate == value
      ensures formType == old(formType) && cabNumber == old(cabNumber)
      ensures drivers == old(drivers) && vehicles == old(vehicles) && refundEntries == old(refundEntries)
    {
      effectiveDate := value;
    }

    /** "Add Another": one more blank entry after the existing ones. */
    method AddEntry()
      modifies this
      ensures refundEntries == old(refundEntries) + [BlankEntry]
      ensures formType == old(formType) && cabNumber == old(cabNumber) && effectiveDate == old(effectiveDate)
      ensures drivers == old(drivers) && vehicles == old(vehicles)
    {
      refundEntries := refundEntries + [BlankEntry];
    }

    /** Typing in the cab box of entry idx. */
    method SetEntryCab(idx: nat, value: string)
      requires idx < |refundEntries|
      modifies this
      ensures refundEntries == old(refundEntries)[idx := old(refundEntries)[idx].(cab := value)]
      ensures formType == old(formType) && cabNumber == old(cabNumber) && effectiveDate == old(effectiveDate)
      ensures drivers == old(drivers) && vehicles == old(vehicles)
    {
      refundEntries := refundEntries[idx := refundEntries[idx].(cab := value)];
    }

    /** Typing in the VIN box of entry idx. */
    method SetEntryVin(idx: nat, value: string)
      requires idx < |refundEntries|
      modifies this
      ensures refundEntries == old(refundEntries)[idx := old(refundEntries)[idx].(vin := value)]
      ensures formType == old(formType) && cabNumber == old(cabNumber) && effectiveDate == old(effectiveDate)
      ensures drivers == old(drivers) && vehicles == old(vehicles)
    {
      refundEntries := refundEntries[idx := refundEntries[idx].(vin := value)];
    }

    /** `generatePDF`. The driver lookup runs first for every form type;
        when it throws, the new document stays blank and is not saved.
        Otherwise the selected letter and the footer are drawn and the
        document is saved as `<formType>_form.pdf`. */
    method GeneratePdf() returns (doc: PdfDoc)
      ensures fresh(doc)
      ensures var driver := DriverByCab(drivers, vehicles, cabNumber);
        && (driver.None? ==> doc.commands == [] && doc.savedAs == None)
        && (driver.Some? ==>
              && doc.commands == Document(formType, cabNumber, effectiveDate, refundEntries, driver.value, VehicleOfCab(vehicles, cabNumber).value)
              && doc.savedAs == Some(FileName(formType)))
    {
      doc := new PdfDoc();
      var selected := DriverByCab(drivers, vehicles, cabNumber);
      if selected.None? {
        return;
      }
      DrawBody(doc, formType, cabNumber, effectiveDate, refundEntries, selected.value, VehicleOfCab(vehicles, cabNumber).value);
      doc.TextColumn(FooterLines(), 10, 280, 6);
      doc.Save(formType + "_form.pdf");
    }
  }
}
