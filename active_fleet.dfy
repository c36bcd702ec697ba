/** The active-fleet page: the driver-vehicle assignments whose status is
    "active", a search over six name and vehicle fields, a CSV export of
    what the search shows, and an edit record sent back under both ids. */
module ActiveFleet {

  import opened Wrappers
  import opened Text
  import opened Js
  import opened Seqs
  import opened Search
  import opened Forms

  // ---------------------------------------------------------------------
  // Loading

  /** `a.status === "active"`; None is the TypeError of a null element. */
  function IsActive(a: JsVal): (r: Option<bool>)
    ensures r.None? <==> Nullish(a)
    ensures r == Some(true) <==> a.Obj? && Get(a.fields, "status") == Str("active")
  {
    match Prop(a, "status")
    case None => None
    case Some(s) => Some(StrictEq(s, Str("active")))
  }

  /** An assignment that is kept on load. */
  predicate Active(a: JsVal) {
    a.Obj? && Get(a.fields, "status") == Str("active")
  }

  /** `data.assignments?.filter(a => a.status === "active") || []` for a
      response body. None is a TypeError, which the page catches: a null
      body, an `assignments` value without a `filter` method, or a null
      element. */
  function ActiveOnly(data: JsVal): (r: Option<seq<JsVal>>)
    ensures Nullish(data) ==> r.None?
    ensures !Nullish(data) && Nullish(OptProp(data, "assignments")) ==> r == Some([])
    ensures !Nullish(data) && !Nullish(OptProp(data, "assignments")) && !OptProp(data, "assignments").Arr? ==> r.None?
    ensures OptProp(data, "assignments").Arr? ==>
      var list := OptProp(data, "assignments").items;
      && (r.None? <==> exists i :: 0 <= i < |list| && Nullish(list[i]))
      && (r.Some? ==> r.value == Filter(list, Active))
  {
    match Prop(data, "assignments")
    case None => None
    case Some(a) =>
      if Nullish(a) then Some([])
      else if a.Arr? then
        var kept := TryFilter(a.items, IsActive);
        if kept.Some? then
          FilterCongruent(a.items, Passes(IsActive), Active);
          kept
        else kept
      else None
  }

  /** Every assignment in the loaded list is active, and every active
      assignment of the response is in it. */
  lemma LoadedAreActive(data: JsVal)
    requires ActiveOnly(data).Some?
    ensures forall i :: 0 <= i < |ActiveOnly(data).value| ==> Active(ActiveOnly(data).value[i])
    ensures OptProp(data, "assignments").Arr? ==>
      IsSubseq(ActiveOnly(data).value, OptProp(data, "assignments").items)
      && forall a :: a in OptProp(data, "assignments").items && Active(a) ==> a in ActiveOnly(data).value
  {
    if OptProp(data, "assignments").Arr? {
      FilterIsSubseq(OptProp(data, "assignments").items, Active);
    }
  }

  // ---------------------------------------------------------------------
  // Search

  /** The fields the search looks at, in the order `||` tries them. */
  const SearchFields: seq<string> := ["firstName", "lastName", "make", "model", "lic_plate", "cabNumber"]

  /** `assignments.filter(...)`. Over rows whose six fields are strings it
      keeps, in order, exactly the assignments with a field containing the
      query. */
  function FilterAssignments(list: seq<JsVal>, search: string): (r: Option<seq<JsVal>>)
    ensures r.Some? ==> IsSubseq(r.value, list)
    ensures (forall k :: 0 <= k < |list| ==> Readable(list[k], SearchFields, false)) ==>
      r == Some(Filter(list, a => HasText(a, SearchFields, Lower(search))))
  {
    var r := SearchFilter(list, SearchFields, search, false);
    if forall k :: 0 <= k < |list| ==> Readable(list[k], SearchFields, false) then
      SearchOverText(list, SearchFields, search, false); r
    else r
  }

  /** An empty query keeps every assignment with a first name. */
  lemma EmptyQueryKeepsAll(list: seq<JsVal>)
    requires forall k :: 0 <= k < |list| ==> list[k].Obj? && Get(list[k].fields, "firstName").Str?
    ensures FilterAssignments(list, "") == Some(list)
  {
    EmptySearchKeepsAll(list, SearchFields, false);
  }

  // ---------------------------------------------------------------------
  // Update

  /** The two ids that address an assignment and are not sent in its body. */
  const Ids: set<string> := {"driver_id", "vehicle_id"}

  /** `const { driver_id, vehicle_id, ...payload } = editData` and the PUT
      to `endpoint/driver_id/vehicle_id` with that payload. */
  function UpdateRequest(endpoint: string, edit: Record): (p: Put)
    ensures p.url == endpoint + "/" + ToStr(Get(edit, "driver_id")) + "/" + ToStr(Get(edit, "vehicle_id"))
    ensures p.body.Keys == edit.Keys - Ids
    ensures forall k :: k !in Ids ==> Get(p.body, k) == Get(edit, k)
  {
    Put(endpoint + "/" + ToStr(Get(edit, "driver_id")) + "/" + ToStr(Get(edit, "vehicle_id")), Without(edit, Ids))
  }

  /** The URL's last two path segments are the driver id and then the
      vehicle id, whenever neither holds a slash. */
  lemma UrlEndsWithBothIds(endpoint: string, edit: Record)
    requires '/' !in ToStr(Get(edit, "driver_id")) && '/' !in ToStr(Get(edit, "vehicle_id"))
    ensures Split(UpdateRequest(endpoint, edit).url, '/') ==
      Split(endpoint, '/') + [ToStr(Get(edit, "driver_id")), ToStr(Get(edit, "vehicle_id"))]
  {
    var d, v := ToStr(Get(edit, "driver_id")), ToStr(Get(edit, "vehicle_id"));
    AppendSegment(endpoint, d);
    AppendSegment(endpoint + "/" + d, v);
  }

  /** Nothing but the ids is lost: the body together with the ids in the
      URL gives back the edit record. */
  lemma PayloadAndIdsRestoreRecord(endpoint: string, edit: Record)
    requires "driver_id" in edit && "vehicle_id" in edit
    ensures SetField(SetField(UpdateRequest(endpoint, edit).body, "driver_id", edit["driver_id"]), "vehicle_id", edit["vehicle_id"]) == edit
  {
    WithoutRestore(edit, "driver_id", "vehicle_id");
  }

  class ActiveFleetPage {
    var assignments: seq<JsVal>
    var search: string
    /** The record being edited; None while the edit dialog is closed. */
    var editData: Option<Record>

    constructor ()
      ensures assignments == [] && search == "" && editData == None
    {
      assignments := [];
      search := "";
      editData := None;
    }

    /** `fetchAssignments` with the response body (None when the request
        failed). Any error leaves the list as it was. */
    method FetchAssignments(data: Option<JsVal>)
      modifies this
      ensures data.Some? && ActiveOnly(data.value).Some? ==> assignments == ActiveOnly(data.value).value
      ensures data.None? || ActiveOnly(data.value).None? ==> assignments == old(assignments)
      ensures search == old(search) && editData == old(editData)
    {
      if data.Some? {
        var activeOnly := ActiveOnly(data.value);
        if activeOnly.Some? {
          assignments := activeOnly.value;
        }
      }
    }

    method SetSearch(value: string)
      modifies this
      ensures search == value
      ensures assignments == old(assignments) && editData == old(editData)
    {
      search := value;
    }

    /** `filtered`; None when the filter throws on a row. */
    function Filtered(): (r: Option<seq<JsVal>>)
      reads this
      ensures r == FilterAssignments(assignments, search)
    {
      FilterAssignments(assignments, search)
    }

    /** `handleExport`: the rows handed to the CSV writer are the ones the
        search shows. */
    method ExportRows() returns (rows: Option<seq<JsVal>>)
      ensures rows == Filtered()
    {
      rows := Filtered();
    }

    /** `handleEditClick`: the edit record is a copy of the row. */
    method EditClick(assignment: Record)
      modifies this
      ensures editData == Some(assignment)
      ensures assignments == old(assignments) && search == old(search)
    {
      editData := Some(assignment);
    }

    /** `handleEditChange`: one field of the edit record is set. */
    method EditChange(name: string, value: string)
      modifies this
      ensures editData == Some(Patch(old(editData), name, value))
      ensures assignments == old(assignments) && search == old(search)
    {
      editData := Some(Patch(editData, name, value));
    }

    /** `handleEditSubmit`, given whether the update request succeeds.
        Destructuring a closed (null) edit record throws before any
        request. Success closes the edit record, failure keeps it. */
    method EditSubmit(endpoint: string, ok: bool) returns (sent: Option<Put>)
      modifies this
      ensures old(editData).None? ==> sent == None
      ensures old(editData).Some? ==> sent == Some(UpdateRequest(endpoint, old(editData).value))
      ensures editData == (if old(editData).Some? && ok then None else old(editData))
      ensures assignments == old(assignments) && search == old(search)
    {
      sent := None;
      if editData.Some? {
        sent := Some(UpdateRequest(endpoint, editData.value));
        if ok {
          editData := None;
        }
      }
    }
  }
}
