/** The drivers page: the driver list, a search by first or last name, a
    CSV export of what the search shows, and an edit record that is opened
    from a row, changed field by field and sent back. */
module Drivers {

  import opened Wrappers
  import opened Text
  import opened Js
  import opened Seqs
  import opened Search
  import opened Forms

  /** The fields the search looks at, in the order `||` tries them. */
  const SearchFields: seq<string> := ["firstName", "lastName"]

  /** A driver row whose two names are strings. */
  predicate Named(d: JsVal) {
    d.Obj? && Get(d.fields, "firstName").Str? && Get(d.fields, "lastName").Str?
  }

  /** The source's own test: the lowercased first or last name contains
      the lowercased query. */
  predicate NameHas(d: JsVal, q: string) {
    Named(d) && (Contains(Lower(Get(d.fields, "firstName").s), q) || Contains(Lower(Get(d.fields, "lastName").s), q))
  }

  /** Over rows with both names, the search keeps, in order, exactly the
      drivers whose first or last name contains the query. */
  lemma NameSearch(list: seq<JsVal>, search: string)
    requires forall k :: 0 <= k < |list| ==> Named(list[k])
    ensures SearchFilter(list, SearchFields, search, false) == Some(Filter(list, d => NameHas(d, Lower(search))))
  {
    var q := Lower(search);
    forall k | 0 <= k < |list|
      ensures Readable(list[k], SearchFields, false)
      ensures HasText(list[k], SearchFields, q) == NameHas(list[k], q)
    {
      var d := list[k];
      if NameHas(d, q) {
        if Contains(Lower(Get(d.fields, "firstName").s), q) {
          assert SearchFields[0] == "firstName";
        } else {
          assert SearchFields[1] == "lastName";
        }
      }
    }
    SearchOverText(list, SearchFields, search, false);
    FilterCongruent(list, d => HasText(d, SearchFields, q), d => NameHas(d, q));
  }

  /** An empty query keeps every driver with a first name. */
  lemma EmptySearchKeepsAllDrivers(list: seq<JsVal>)
    requires forall k :: 0 <= k < |list| ==> list[k].Obj? && Get(list[k].fields, "firstName").Str?
    ensures SearchFilter(list, SearchFields, "", false) == Some(list)
  {
    EmptySearchKeepsAll(list, SearchFields, false);
  }

  /** `drivers.filter(...)` over an array of rows. */
  function FilterDrivers(list: seq<JsVal>, search: string): (r: Option<seq<JsVal>>)
    ensures r.Some? ==> IsSubseq(r.value, list)
    ensures (forall k :: 0 <= k < |list| ==> Named(list[k])) ==> r == Some(Filter(list, d => NameHas(d, Lower(search))))
  {
    var r := SearchFilter(list, SearchFields, search, false);
    if forall k :: 0 <= k < |list| ==> Named(list[k]) then NameSearch(list, search); r else r
  }

  class DriversPage {
    var drivers: JsVal
    var search: string
    /** The record being edited; None while the edit dialog is closed. */
    var editData: Option<Record>

    constructor ()
      ensures drivers == Arr([]) && search == "" && editData == None
    {
      drivers := Arr([]);
      search := "";
      editData := None;
    }

    /** `fetchDrivers` with the response body (None when the request
        failed): `data.drivers || []`. A failure, or reading `drivers` of a
        null body, leaves the list as it was. */
    method FetchDrivers(data: Option<JsVal>)
      modifies this
      ensures data.Some? && !Nullish(data.value) ==> drivers == Or(OptProp(data.value, "drivers"), Arr([]))
      ensures data.None? || Nullish(data.value) ==> drivers == old(drivers)
      ensures search == old(search) && editData == old(editData)
    {
      if data.Some? {
        var list := Prop(data.value, "drivers");
        if list.Some? {
          drivers := Or(list.value, Arr([]));
        }
      }
    }

    method SetSearch(value: string)
      modifies this
      ensures search == value
      ensures drivers == old(drivers) && editData == old(editData)
    {
      search := value;
    }

    /** `filteredDrivers`; None when the filter throws (the list is not an
        array, or a row lacks a name). */
    function FilteredDrivers(): (r: Option<seq<JsVal>>)
      reads this
      ensures !drivers.Arr? ==> r.None?
      ensures drivers.Arr? ==> r == FilterDrivers(drivers.items, search)
    {
      if drivers.Arr? then FilterDrivers(drivers.items, search) else None
    }

    /** `handleExportCSV`: the rows handed to the CSV writer are the ones
        the search shows. */
    method ExportRows() returns (rows: Option<seq<JsVal>>)
      ensures rows == FilteredDrivers()
    {
      rows := FilteredDrivers();
    }

    /** `handleEditClick`: the edit record is a copy of the row. */
    method EditClick(driver: Record)
      modifies this
      ensures editData == Some(driver)
      ensures drivers == old(drivers) && search == old(search)
    {
      editData := Some(driver);
    }

    /** `handleEditChange`: one field of the edit record is set; the loaded
        list is not touched. */
    method EditChange(name: string, value: string)
      modifies this
      ensures editData == Some(Patch(old(editData), name, value))
      ensures drivers == old(drivers) && search == old(search)
    {
      editData := Some(Patch(editData, name, value));
    }

    /** `handleEditSubmit`, given whether the update request succeeds.
        Returns the request sent; none is sent while no record is open
        (reading its id throws). Success closes the edit record, failure
        keeps it as it was. */
    method EditSubmit(endpoint: string, ok: bool) returns (sent: Option<Put>)
      modifies this
      ensures old(editData).None? ==> sent == None
      ensures old(editData).Some? ==> sent == Some(UpdateById(endpoint, old(editData).value, "driver_id"))
      ensures editData == (if old(editData).Some? && ok then None else old(editData))
      ensures drivers == old(drivers) && search == old(search)
    {
      sent := None;
      if editData.Some? {
        sent := Some(UpdateById(endpoint, editData.value, "driver_id"));
        if ok {
          editData := None;
        }
      }
    }
  }
}
