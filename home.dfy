/** The home dashboard: four figures refreshed from four list endpoints in a
    row — the weekly balance owed on assignments, the number of active
    sessions, the drivers online and the in-progress and completed trip
    counts. A failed request, or a TypeError while reading a response,
    abandons the refresh at that point. */
module Home {

  import opened Wrappers
  import opened Text
  import opened Js
  import opened Seqs

  // ---------------------------------------------------------------------
  // 1. Weekly balance

  /** An assignment whose balance adds as a number: its `weekly_balance`
      is a number or falsy. */
  predicate NumericBalance(a: JsVal) {
    a.Obj? && (Get(a.fields, "weekly_balance").Num? || !Truthy(Get(a.fields, "weekly_balance")))
  }

  /** The amount an assignment contributes: its number, or 0 when falsy. */
  function Owed(a: JsVal): int {
    if a.Obj? && Get(a.fields, "weekly_balance").Num? then Get(a.fields, "weekly_balance").n else 0
  }

  /** The reducer `(sum, a) => sum + (a.weekly_balance || 0)`. None is the
      TypeError of reading `weekly_balance` of a null or undefined element. */
  function Accumulate(sum: JsVal, a: JsVal): (r: Option<JsVal>)
    ensures r.None? <==> Nullish(a)
    ensures sum.Num? && NumericBalance(a) ==> r == Some(Num(sum.n + Owed(a)))
  {
    match Prop(a, "weekly_balance")
    case None => None
    case Some(w) => Some(Add(sum, Or(w, Num(0))))
  }

  /** `assignments.reduce(Accumulate, 0)`, left to right. */
  function Balance(items: seq<JsVal>): (r: Option<JsVal>)
    ensures r.None? <==> exists i :: 0 <= i < |items| && Nullish(items[i])
  {
    if items == [] then Some(Num(0))
    else
      match Balance(items[..|items| - 1])
      case None => None
      case Some(sum) => Accumulate(sum, items[|items| - 1])
  }

  /** The weekly balance from the assignments response body (None when the
      request failed): `data.assignments || []` reduced as above. A truthy
      `assignments` that is not an array has no `reduce`. */
  function BalanceOf(res: Option<JsVal>): (r: Option<JsVal>)
    ensures res.None? ==> r.None?
  {
    if res.None? then None
    else match Prop(res.value, "assignments")
      case None => None
      case Some(v) =>
        var list := Or(v, Arr([]));
        if list.Arr? then Balance(list.items) else None
  }

  /** The total owed over a list of assignments. */
  function TotalOwed(items: seq<JsVal>): int {
    if items == [] then 0 else TotalOwed(items[..|items| - 1]) + Owed(items[|items| - 1])
  }

  /** When every balance is a number or falsy, the reduce is the sum of the
      balances with the falsy ones counted as 0. */
  lemma {:induction false} BalanceIsSum(items: seq<JsVal>)
    requires forall i :: 0 <= i < |items| ==> NumericBalance(items[i])
    ensures Balance(items) == Some(Num(TotalOwed(items)))
  {
    if items != [] {
      var init, last := items[..|items| - 1], items[|items| - 1];
      BalanceIsSum(init);
      assert Balance(items) == Accumulate(Num(TotalOwed(init)), last);
    }
  }

  /** A body with no (or a falsy) `assignments` field gives 0. */
  lemma MissingAssignmentsGiveZero(fields: Record)
    requires !Truthy(Get(fields, "assignments"))
    ensures BalanceOf(Some(Obj(fields))) == Some(Num(0))
  {
  }

  /** A balance stored as a non-empty string turns the sum into
      concatenation: 0 + "100" is "0100". */
  lemma StringBalanceConcatenates(a: Record, text: string)
    requires Get(a, "weekly_balance") == Str(text) && text != ""
    ensures Balance([Obj(a)]) == Some(Str("0" + text))
  {
    assert [Obj(a)][..0] == [];
    assert IntToString(0) == "0";
  }

  // ---------------------------------------------------------------------
  // Status tests shared by sessions and trips

  /** `v?.trim().toLowerCase() === word`: a missing value never matches;
      None is the TypeError of calling `trim` on a value that is not a
      string. */
  function StatusIs(v: JsVal, word: string): (r: Option<bool>)
    ensures r.None? <==> !OptString(v)
    ensures r == Some(true) <==> v.Str? && Lower(Trim(v.s)) == word
  {
    if Nullish(v) then Some(false)
    else if v.Str? then Some(Lower(Trim(v.s)) == word)
    else None
  }

  /** The test on one list element: its `field` compared as above. Reading
      a field of a null element throws. */
  function HasStatus(field: string, word: string): JsVal -> Option<bool> {
    x => match Prop(x, field)
      case None => None
      case Some(v) => StatusIs(v, word)
  }

  /** A record whose status field, trimmed and lowercased, is the word. */
  predicate StatusEquals(x: JsVal, field: string, word: string) {
    x.Obj? && Get(x.fields, field).Str? && Lower(Trim(Get(x.fields, field).s)) == word
  }

  /** `list.filter(x => x[field]?.trim().toLowerCase() === word).length`;
      `filter` exists only on arrays. */
  function CountStatus(list: JsVal, field: string, word: string): (r: Option<nat>)
  {
    if !list.Arr? then None
    else match TryFilter(list.items, HasStatus(field, word))
      case None => None
      case Some(xs) => Some(|xs|)
  }

  /** A list of records whose status fields are strings or missing counts
      without throwing, and counts exactly the records whose status is the
      word. */
  lemma CountStatusFilter(items: seq<JsVal>, field: string, word: string)
    requires forall i :: 0 <= i < |items| ==> items[i].Obj? && OptString(Get(items[i].fields, field))
    ensures CountStatus(Arr(items), field, word) == Some(|Filter(items, x => StatusEquals(x, field, word))|)
  {
    var p := HasStatus(field, word);
    assert forall i :: 0 <= i < |items| ==> p(items[i]).Some?;
    FilterCongruent(items, Passes(p), x => StatusEquals(x, field, word));
  }

  /** Padding and case do not matter, and a missing status does not
      match: " Active " is active. */
  lemma StatusIgnoresPaddingAndCase(padded: string)
    requires padded == " Active "
    ensures StatusIs(Str(padded), "active") == Some(true)
    ensures StatusIs(Undef, "active") == Some(false)
  {
    assert LeadingSpaces(padded) == 1 && TrailingSpaces(padded) == 1;
    assert Trim(padded) == "Active";
    assert Lower("Active") == "active";
  }

  // ---------------------------------------------------------------------
  // 2. Active sessions

  /** The number of sessions whose `sessionStatus` is "active" once trimmed
      and lowercased. */
  function ActiveOf(res: Option<JsVal>): (r: Option<nat>)
    ensures res.None? ==> r.None?
  {
    if res.None? then None else CountStatus(res.value, "sessionStatus", "active")
  }

  // ---------------------------------------------------------------------
  // 3. Live drivers

  /** `d => d.online`, which throws on a null element. */
  function IsOnline(d: JsVal): Option<bool> {
    match Prop(d, "online")
    case None => None
    case Some(v) => Some(Truthy(v))
  }

  /** `data.filter((d) => d.online)`. */
  function LiveOf(res: Option<JsVal>): (r: Option<seq<JsVal>>)
    ensures res.None? ==> r.None?
  {
    if res.None? || !res.value.Arr? then None else TryFilter(res.value.items, IsOnline)
  }

  /** The live drivers are the online ones, in response order. */
  lemma LiveAreOnline(items: seq<JsVal>)
    requires forall i :: 0 <= i < |items| ==> !Nullish(items[i])
    ensures LiveOf(Some(Arr(items))).Some?
    ensures var live := LiveOf(Some(Arr(items))).value;
      && IsSubseq(live, items)
      && (forall i :: 0 <= i < |live| ==> Truthy(OptProp(live[i], "online")))
      && (forall i :: 0 <= i < |items| && Truthy(OptProp(items[i], "online")) ==> items[i] in live)
  {
    assert forall i :: 0 <= i < |items| ==> IsOnline(items[i]).Some?;
    FilterIsSubseq(items, Passes(IsOnline));
    FilterCongruent(items, Passes(IsOnline), d => Truthy(OptProp(d, "online")));
  }

  // ---------------------------------------------------------------------
  // 4. Trip statuses

  /** The trip list: the body itself if it is an array, else its truthy
      `trips`, else its truthy `data.trips`, else an empty list. None is
      the TypeError of reading `trips` of a null body. */
  function NormaliseTrips(raw: JsVal): (r: Option<JsVal>)
    ensures r.None? <==> Nullish(raw)
  {
    if raw.Arr? then Some(raw)
    else match Prop(raw, "trips")
      case None => None
      case Some(t) =>
        if Truthy(t) then Some(t)
        else
          var nested := OptProp(OptProp(raw, "data"), "trips");
          if Truthy(nested) then Some(nested) else Some(Arr([]))
  }

  /** The four shapes, first match wins. */
  lemma NormaliseTripsShapes(xs: seq<JsVal>, fields: Record)
    ensures NormaliseTrips(Arr(xs)) == Some(Arr(xs))
    ensures Truthy(Get(fields, "trips")) ==> NormaliseTrips(Obj(fields)) == Some(Get(fields, "trips"))
    ensures !Truthy(Get(fields, "trips")) && Truthy(OptProp(Get(fields, "data"), "trips")) ==>
      NormaliseTrips(Obj(fields)) == Some(OptProp(Get(fields, "data"), "trips"))
    ensures !Truthy(Get(fields, "trips")) && !Truthy(OptProp(Get(fields, "data"), "trips")) ==>
      NormaliseTrips(Obj(fields)) == Some(Arr([]))
  {
  }

  /** An empty array is truthy: an empty `trips` field hides a non-empty
      `data.trips`. */
  lemma EmptyTripsFieldWins(nested: seq<JsVal>)
    ensures NormaliseTrips(Obj(map["trips" := Arr([]), "data" := Obj(map["trips" := Arr(nested)])])) == Some(Arr([]))
  {
  }

  /** The in-progress and completed counts of the normalised list. */
  function TripCountsOf(res: Option<JsVal>): (r: Option<(nat, nat)>)
    ensures res.None? ==> r.None?
  {
    if res.None? then None
    else match NormaliseTrips(res.value)
      case None => None
      case Some(list) =>
        match (CountStatus(list, "tripStatus", "in_progress"), CountStatus(list, "tripStatus", "completed"))
        case (Some(inProgress), Some(completed)) => Some((inProgress, completed))
        case _ => None
  }

  /** No trip is both in progress and completed, so the two counts add up
      to at most the number of trips. */
  lemma TripCountsBound(res: Option<JsVal>)
    requires TripCountsOf(res).Some?
    ensures var list := NormaliseTrips(res.value).value;
      list.Arr? && TripCountsOf(res).value.0 + TripCountsOf(res).value.1 <= |list.items|
  {
    var list := NormaliseTrips(res.value).value;
    var p, q := HasStatus("tripStatus", "in_progress"), HasStatus("tripStatus", "completed");
    forall i | 0 <= i < |list.items|
      ensures !(Passes(p)(list.items[i]) && Passes(q)(list.items[i]))
    {
      if Passes(p)(list.items[i]) {
        assert p(list.items[i]) == Some(true);
        var v := Prop(list.items[i], "tripStatus").value;
        assert Lower(Trim(v.s)) == "in_progress";
      }
    }
    FilterDisjoint(list.items, Passes(p), Passes(q));
  }

  // ---------------------------------------------------------------------
  // The page

  class Dashboard {
    var weeklyBalance: JsVal
    var activeDriversCount: int
    var liveDrivers: seq<JsVal>
    var inProgressTrips: int
    var completedTrips: int

    /** The initial state: zeros and an empty list. */
    constructor ()
      ensures weeklyBalance == Num(0) && activeDriversCount == 0 && liveDrivers == []
      ensures inProgressTrips == 0 && completedTrips == 0
    {
      weeklyBalance := Num(0);
      activeDriversCount := 0;
      liveDrivers := [];
      inProgressTrips := 0;
      completedTrips := 0;
    }

    /** `fetchData`, given the four response bodies in request order (None
        for a failed request). Each figure is set as soon as it is
        computed; the first failure skips everything after it. */
    method FetchData(assignedRes: Option<JsVal>, sessionsRes: Option<JsVal>, liveRes: Option<JsVal>, tripsRes: Option<JsVal>)
      modifies this
      ensures var b, a, l, t := BalanceOf(assignedRes), ActiveOf(sessionsRes), LiveOf(liveRes), TripCountsOf(tripsRes);
        && weeklyBalance == (if b.Some? then b.value else old(weeklyBalance))
        && activeDriversCount == (if b.Some? && a.Some? then a.value else old(activeDriversCount))
        && liveDrivers == (if b.Some? && a.Some? && l.Some? then l.value else old(liveDrivers))
        && (inProgressTrips, completedTrips) ==
           (if b.Some? && a.Some? && l.Some? && t.Some? then t.value else (old(inProgressTrips), old(completedTrips)))
    {
      var totalBalance := BalanceOf(assignedRes);
      if totalBalance.None? {
        return;
      }
      weeklyBalance := totalBalance.value;

      var activeCount := ActiveOf(sessionsRes);
      if activeCount.None? {
        return;
      }
      activeDriversCount := activeCount.value;

      var onlineDrivers := LiveOf(liveRes);
      if onlineDrivers.None? {
        return;
      }
      liveDrivers := onlineDrivers.value;

      var counts := TripCountsOf(tripsRes);
      if counts.None? {
        return;
      }
      inProgressTrips := counts.value.0;
      completedTrips := counts.value.1;
    }
  }
}
