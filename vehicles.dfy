/** The vehicles page: the vehicle list, a search over five descriptive
    fields read with optional chaining, a CSV export of what the search
    shows, and an edit record sent back by vehicle id. */
module Vehicles {

  import opened Wrappers
  import opened Text
  import opened Js
  import opened Seqs
  import opened Search
  import opened Forms

  /** The fields the search looks at, in the order `||` tries them. */
  const SearchFields: seq<string> := ["cabNumber", "make", "model", "lic_plate", "color"]

  /** `vehicles.filter(...)` over an array of rows. Over rows whose five
      fields are strings or missing it keeps, in order, exactly the
      vehicles with a present field containing the query. */
  function FilterVehicles(list: seq<JsVal>, search: string): (r: Option<seq<JsVal>>)
    ensures r.Some? ==> IsSubseq(r.value, list)
    ensures (forall k :: 0 <= k < |list| ==> Readable(list[k], SearchFields, true)) ==>
      r == Some(Filter(list, v => HasText(v, SearchFields, Lower(search))))
  {
    var r := SearchFilter(list, SearchFields, search, true);
    if forall k :: 0 <= k < |list| ==> Readable(list[k], SearchFields, true) then
      SearchOverText(list, SearchFields, search, true); r
    else r
  }

  /** A vehicle with none of the five fields is dropped, even for an empty
      query. */
  lemma NoSearchedFieldDropped(v: Record, search: string)
    requires forall i :: 0 <= i < |SearchFields| ==> SearchFields[i] !in v
    ensures FilterVehicles([Obj(v)], search) == Some([])
  {
    NoFieldsNoHit(Obj(v), SearchFields, search);
  }

  /** An empty query keeps exactly the vehicles that have at least one of
      the five fields. */
  lemma EmptyQueryKeepsVehiclesWithAField(list: seq<JsVal>)
    requires forall k :: 0 <= k < |list| ==> Readable(list[k], SearchFields, true)
    ensures FilterVehicles(list, "") == Some(Filter(list, v => HasSomeField(v, SearchFields)))
  {
    EmptyOptionalSearch(list, SearchFields);
  }

  /** The VIN, the year and the status are never searched: changing one of
      them does not change the search's answer. */
  lemma UnsearchedFieldsIgnored(v: Record, field: string, value: JsVal, search: string)
    requires field == "vinNumber" || field == "year" || field == "status"
    ensures Matcher(SearchFields, search, true)(Obj(v[field := value])) == Matcher(SearchFields, search, true)(Obj(v))
  {
    assert forall i :: 0 <= i < |SearchFields| ==> SearchFields[i] != field;
    OnlyListedFieldsSearched(v[field := value], v, SearchFields, Lower(search), true);
  }

  class VehiclesPage {
    var vehicles: JsVal
    var search: string
    /** The record being edited; None while the edit dialog is closed. */
    var editData: Option<Record>

    constructor ()
      ensures vehicles == Arr([]) && search == "" && editData == None
    {
      vehicles := Arr([]);
      search := "";
      editData := None;
    }

    /** `fetchVehicles` with the response body (None when the request
        failed): `data.vehicles || []`. A failure, or reading `vehicles` of
        a null body, leaves the list as it was. */
    method FetchVehicles(data: Option<JsVal>)
      modifies this
      ensures data.Some? && !Nullish(data.value) ==> vehicles == Or(OptProp(data.value, "vehicles"), Arr([]))
      ensures data.None? || Nullish(data.value) ==> vehicles == old(vehicles)
      ensures search == old(search) && editData == old(editData)
    {
      if data.Some? {
        var list := Prop(data.value, "vehicles");
        if list.Some? {
          vehicles := Or(list.value, Arr([]));
        }
      }
    }

    method SetSearch(value: string)
      modifies this
      ensures search == value
      ensures vehicles == old(vehicles) && editData == old(editData)
    {
      search := value;
    }

    /** `filteredVehicles`; None when the filter throws (the list is not an
        array, or a searched field is neither a string nor missing). */
    function FilteredVehicles(): (r: Option<seq<JsVal>>)
      reads this
      ensures !vehicles.Arr? ==> r.None?
      ensures vehicles.Arr? ==> r == FilterVehicles(vehicles.items, search)
    {
      if vehicles.Arr? then FilterVehicles(vehicles.items, search) else None
    }

    /** `handleExportCSV`: the rows handed to the CSV writer are the ones
        the search shows. */
    method ExportRows() returns (rows: Option<seq<JsVal>>)
      ensures rows == FilteredVehicles()
    {
      rows := FilteredVehicles();
    }

    /** `handleEditClick`: the edit record is a copy of the row. */
    method EditClick(vehicle: Record)
      modifies this
      ensures editData == Some(vehicle)
      ensures vehicles == old(vehicles) && search == old(search)
    {
      editData := Some(vehicle);
    }

    /** `handleEditChange`: one field of the edit record is set. */
    method EditChange(name: string, value: string)
      modifies this
      ensures editData == Some(Patch(old(editData), name, value))
      ensures vehicles == old(vehicles) && search == old(search)
    {
      editData := Some(Patch(editData, name, value));
    }

    /** `handleEditSubmit`, given whether the update request succeeds.
        Returns the request sent; none is sent while no record is open.
        Success closes the edit record, failure keeps it as it was. */
    method EditSubmit(endpoint: string, ok: bool) returns (sent: Option<Put>)
      modifies this
      ensures old(editData).None? ==> sent == None
      ensures old(editData).Some? ==> sent == Some(UpdateById(endpoint, old(editData).value, "vehicle_id"))
      ensures editData == (if old(editData).Some? && ok then None else old(editData))
      ensures vehicles == old(vehicles) && search == old(search)
    {
      sent := None;
      if editData.Some? {
        sent := Some(UpdateById(endpoint, editData.value, "vehicle_id"));
        if ok {
          editData := None;
        }
      }
    }
  }
}
