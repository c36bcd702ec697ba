/** The assignment page: pick a driver and a vehicle from the loaded lists,
    fill in three assignment fields, and post the assignment. A submit
    without both selections is refused with a message; a successful post
    clears the selections and resets the form. */
module Assign {

  import opened Wrappers
  import opened Text
  import opened Js
  import opened Seqs
  import opened Forms

  // ---------------------------------------------------------------------
  // Selecting by id

  /** `x.key.toString() === value`. Reading `key` of a null row, or calling
      `toString` on a null or undefined id, throws (None). */
  function IdMatches(x: JsVal, key: string, value: string): (r: Option<bool>)
    ensures r.None? <==> Nullish(x) || Nullish(OptProp(x, key))
    ensures r == Some(true) <==> !Nullish(x) && !Nullish(OptProp(x, key)) && ToStr(OptProp(x, key)) == value
  {
    match Prop(x, key)
    case None => None
    case Some(id) => if Nullish(id) then None else Some(ToStr(id) == value)
  }

  function IdIs(key: string, value: string): JsVal -> Option<bool> {
    x => IdMatches(x, key, value)
  }

  /** `list.find(x => x.key.toString() === value)`: the first row with that
      id, or undefined. None is a TypeError: the list is not an array, or a
      row or id before the match is null. */
  function Lookup(list: JsVal, key: string, value: string): (r: Option<JsVal>)
    ensures r.Some? && r.value != Undef ==> list.Arr? && r.value in list.items && ToStr(OptProp(r.value, key)) == value
  {
    if !list.Arr? then None
    else match TryFind(list.items, IdIs(key, value))
      case None => None
      case Some(found) => Some(found.GetOr(Undef))
  }

  /** Rows that are records with an id. */
  predicate HasIds(list: JsVal, key: string) {
    IsRecordList(list) && forall i :: 0 <= i < |list.items| ==> !Nullish(Get(list.items[i].fields, key))
  }

  /** Over records that all carry an id the lookup never throws; it answers
      undefined exactly when no row's id string is the chosen value, and
      otherwise the first row whose id string is. */
  lemma LookupCases(list: JsVal, key: string, value: string)
    requires HasIds(list, key)
    ensures Lookup(list, key, value).Some?
    ensures Lookup(list, key, value).value == Undef <==> forall i :: 0 <= i < |list.items| ==> ToStr(Get(list.items[i].fields, key)) != value
    ensures Lookup(list, key, value).value != Undef ==>
      var k := FindIndex(list.items, Passes(IdIs(key, value)));
      && 0 <= k && Lookup(list, key, value).value == list.items[k]
      && ToStr(Get(list.items[k].fields, key)) == value
      && forall j :: 0 <= j < k ==> ToStr(Get(list.items[j].fields, key)) != value
  {
    var p := IdIs(key, value);
    assert forall i :: 0 <= i < |list.items| ==> p(list.items[i]).Some?;
    assert forall i :: 0 <= i < |list.items| ==> (Passes(p)(list.items[i]) <==> ToStr(Get(list.items[i].fields, key)) == value);
  }

  // ---------------------------------------------------------------------
  // The assignment

  /** The fields of the assignment copied from the driver, from the
      vehicle and from the form, in the order the payload lists them. */
  const DriverFields: seq<string> := ["driver_id", "email", "firstName", "lastName"]
  const VehicleFields: seq<string> := ["vehicle_id", "cabNumber", "make", "model", "lic_plate"]
  const FormFields: seq<string> := ["added_to_insurance", "status"]

  /** The form before any input, and after a successful post. */
  function InitialForm(): (f: Record)
    ensures f.Keys == {"added_to_insurance", "weekly_balance", "status"}
  {
    map["added_to_insurance" := Str(""), "weekly_balance" := Num(0), "status" := Str("active")]
  }

  /** The posted body: twelve fields, the weekly balance made a number. */
  function Payload(driver: JsVal, vehicle: JsVal, form: Record): Record {
    map["driver_id" := OptProp(driver, "driver_id"),
        "vehicle_id" := OptProp(vehicle, "vehicle_id"),
        "cabNumber" := OptProp(vehicle, "cabNumber"),
        "make" := OptProp(vehicle, "make"),
        "model" := OptProp(vehicle, "model"),
        "lic_plate" := OptProp(vehicle, "lic_plate"),
        "email" := OptProp(driver, "email"),
        "firstName" := OptProp(driver, "firstName"),
        "lastName" := OptProp(driver, "lastName"),
        "added_to_insurance" := Get(form, "added_to_insurance"),
        "weekly_balance" := ToNumber(Get(form, "weekly_balance")),
        "status" := Get(form, "status")]
  }

  /** The driver's id, email and names are sent as they are. */
  lemma PayloadFromDriver(driver: JsVal, vehicle: JsVal, form: Record)
    ensures var p := Payload(driver, vehicle, form);
      forall i :: 0 <= i < |DriverFields| ==> DriverFields[i] in p && p[DriverFields[i]] == OptProp(driver, DriverFields[i])
  {
  }

  /** The vehicle's id, cab number, make, model and plate are sent as they
      are. */
  lemma PayloadFromVehicle(driver: JsVal, vehicle: JsVal, form: Record)
    ensures var p := Payload(driver, vehicle, form);
      forall i :: 0 <= i < |VehicleFields| ==> VehicleFields[i] in p && p[VehicleFields[i]] == OptProp(vehicle, VehicleFields[i])
  {
  }

  /** The insurance flag and the status are sent from the form, the weekly
      balance converted by `Number`. */
  lemma PayloadFromForm(driver: JsVal, vehicle: JsVal, form: Record)
    ensures var p := Payload(driver, vehicle, form);
      && (forall i :: 0 <= i < |FormFields| ==> FormFields[i] in p && p[FormFields[i]] == Get(form, FormFields[i]))
      && "weekly_balance" in p && p["weekly_balance"] == ToNumber(Get(form, "weekly_balance"))
  {
  }

  /** The payload has exactly twelve fields. */
  lemma PayloadHasTwelveFields(driver: JsVal, vehicle: JsVal, form: Record)
    ensures |Payload(driver, vehicle, form).Keys| == 12
  {
    var keys := Payload(driver, vehicle, form).Keys;
    var listed := DriverFields + VehicleFields + FormFields + ["weekly_balance"];
    assert |listed| == 12;
    assert forall i, j :: 0 <= i < j < |listed| ==> listed[i] != listed[j];
    DistinctCard(listed);
    assert keys == set k | k in listed;
  }

  /** A sequence without repeats has as many distinct elements as it is
      long. */
  lemma {:induction false} DistinctCard<T>(s: seq<T>)
    requires forall i, j :: 0 <= i < j < |s| ==> s[i] != s[j]
    ensures |set x | x in s| == |s|
  {
    if s != [] {
      DistinctCard(s[1..]);
      assert (set x | x in s) == (set x | x in s[1..]) + {s[0]};
      assert s[0] !in (set x | x in s[1..]);
    }
  }

  /** A balance typed as a whole number is posted as that number, and the
      untouched initial balance is posted as 0. */
  lemma BalanceIsPostedAsNumber(driver: JsVal, vehicle: JsVal, form: Record, n: int)
    ensures Payload(driver, vehicle, form["weekly_balance" := Str(IntToString(n))])["weekly_balance"] == Num(n)
    ensures Payload(driver, vehicle, InitialForm())["weekly_balance"] == Num(0)
  {
    NumberOfString(n);
  }

  const SelectBoth: string := "Please select " + "both driver and " + "vehicle."
  const Success: string := "Assignment " + "successful."
  const Failure: string := "Assignment " + "failed."

  class AssignPage {
    var drivers: JsVal
    var vehicles: JsVal
    /** null before any choice, undefined after a choice that matched no row. */
    var selectedDriver: JsVal
    var selectedVehicle: JsVal
    var formData: Record
    var successMessage: string
    var errorMessage: string

    constructor ()
      ensures drivers == Arr([]) && vehicles == Arr([])
      ensures selectedDriver == Null && selectedVehicle == Null
      ensures formData == InitialForm()
      ensures successMessage == "" && errorMessage == ""
    {
      drivers := Arr([]);
      vehicles := Arr([]);
      selectedDriver := Null;
      selectedVehicle := Null;
      formData := InitialForm();
      successMessage := "";
      errorMessage := "";
    }

    /** `fetchData` with the two response bodies (None for a failed
        request). The drivers are stored before the vehicles are requested,
        so a failure of the second request keeps them. */
    method FetchData(driversData: Option<JsVal>, vehiclesData: Option<JsVal>)
      modifies this
      ensures var driversOk := driversData.Some? && !Nullish(driversData.value);
        && drivers == (if driversOk then Or(OptProp(driversData.value, "drivers"), Arr([])) else old(drivers))
        && vehicles == (if driversOk && vehiclesData.Some? && !Nullish(vehiclesData.value)
                        then Or(OptProp(vehiclesData.value, "vehicles"), Arr([])) else old(vehicles))
      ensures selectedDriver == old(selectedDriver) && selectedVehicle == old(selectedVehicle)
      ensures formData == old(formData)
      ensures successMessage == old(successMessage) && errorMessage == old(errorMessage)
    {
      if driversData.Some? {
        var d := Prop(driversData.value, "drivers");
        if d.Some? {
          drivers := Or(d.value, Arr([]));
          if vehiclesData.Some? {
            var v := Prop(vehiclesData.value, "vehicles");
            if v.Some? {
              vehicles := Or(v.value, Arr([]));
            }
          }
        }
      }
    }

    /** `handleDriverChange`: the first driver whose id string is the chosen
        value, or undefined; a throwing lookup changes nothing. */
    method DriverChange(value: string)
      modifies this
      ensures var found := Lookup(drivers, "driver_id", value);
        selectedDriver == (if found.Some? then found.value else old(selectedDriver))
      ensures drivers == old(drivers) && vehicles == old(vehicles) && selectedVehicle == old(selectedVehicle)
      ensures formData == old(formData)
      ensures successMessage == old(successMessage) && errorMessage == old(errorMessage)
    {
      var found := Lookup(drivers, "driver_id", value);
      if found.Some? {
        selectedDriver := found.value;
      }
    }

    /** `handleVehicleChange`, the same over the vehicles. */
    method VehicleChange(value: string)
      modifies this
      ensures var found := Lookup(vehicles, "vehicle_id", value);
        selectedVehicle == (if found.Some? then found.value else old(selectedVehicle))
      ensures drivers == old(drivers) && vehicles == old(vehicles) && selectedDriver == old(selectedDriver)
      ensures formData == old(formData)
      ensures successMessage == old(successMessage) && errorMessage == old(errorMessage)
    {
      var found := Lookup(vehicles, "vehicle_id", value);
      if found.Some? {
        selectedVehicle := found.value;
      }
    }

    /** `handleInputChange`: exactly the named form field is set. */
    method InputChange(name: string, value: string)
      modifies this
      ensures formData == SetField(old(formData), name, Str(value))
      ensures drivers == old(drivers) && vehicles == old(vehicles)
      ensures selectedDriver == old(selectedDriver) && selectedVehicle == old(selectedVehicle)
      ensures successMessage == old(successMessage) && errorMessage == old(errorMessage)
    {
      formData := SetField(formData, name, Str(value));
    }

    /** `handleSubmit`, given whether the post succeeds. Returns the posted
        body; nothing is posted unless both selections are set. */
    method Submit(ok: bool) returns (sent: Option<Record>)
      modifies this
      ensures var both := Truthy(old(selectedDriver)) && Truthy(old(selectedVehicle));
        && (sent.Some? <==> both)
        && (both ==> sent.value == Payload(old(selectedDriver), old(selectedVehicle), old(formData)))
        && (!both ==>
              && errorMessage == SelectBoth && successMessage == ""
              && selectedDriver == old(selectedDriver) && selectedVehicle == old(selectedVehicle)
              && formData == old(formData))
        && (both && ok ==>
              && successMessage == Success && errorMessage == ""
              && selectedDriver == Null && selectedVehicle == Null
              && formData == InitialForm())
        && (both && !ok ==>
              && errorMessage == Failure && successMessage == ""
              && selectedDriver == old(selectedDriver) && selectedVehicle == old(selectedVehicle)
              && formData == old(formData))
      ensures drivers == old(drivers) && vehicles == old(vehicles)
    {
      if !Truthy(selectedDriver) || !Truthy(selectedVehicle) {
        errorMessage := SelectBoth;
        successMessage := "";
        return None;
      }
      var payload := Payload(selectedDriver, selectedVehicle, formData);
      sent := Some(payload);
      if ok {
        successMessage := Success;
        errorMessage := "";
        selectedDriver := Null;
        selectedVehicle := Null;
        formData := InitialForm();
      } else {
        errorMessage := Failure;
        successMessage := "";
      }
    }
  }
}
