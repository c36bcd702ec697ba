/** The search boxes of the drivers, vehicles and active-fleet pages: a list
    element is kept when one of a fixed set of its text fields, lowercased,
    contains the lowercased query. The fields are tried left to right and
    the first hit stops the test, as `||` does. Reading a field of a null
    element, or lowercasing a field that is not a string, throws (None);
    with optional chaining (`field?.toLowerCase()`) a missing field is
    simply no hit. */
module Search {

  import opened Wrappers
  import opened Text
  import opened Js
  import opened Seqs

  /** `x.field.toLowerCase().includes(q)`, or with `optional` set
      `x.field?.toLowerCase().includes(q)`. */
  function FieldHas(x: JsVal, field: string, q: string, optional: bool): (r: Option<bool>)
    ensures r.None? <==> Nullish(x) || !(OptProp(x, field).Str? || (optional && Nullish(OptProp(x, field))))
    ensures r == Some(true) <==> OptProp(x, field).Str? && Contains(Lower(OptProp(x, field).s), q)
  {
    match Prop(x, field)
    case None => None
    case Some(v) =>
      if v.Str? then Some(Contains(Lower(v.s), q))
      else if optional && Nullish(v) then Some(false)
      else None
  }

  /** The fields joined by `||`: the first hit answers true, the first
      throw throws, and a list that runs out answers false. */
  function AnyHas(x: JsVal, fields: seq<string>, q: string, optional: bool): (r: Option<bool>)
    ensures r == Some(true) ==> exists i :: 0 <= i < |fields| && FieldHas(x, fields[i], q, optional) == Some(true)
    ensures r.None? ==> exists i :: 0 <= i < |fields| && FieldHas(x, fields[i], q, optional).None?
    ensures (forall i :: 0 <= i < |fields| ==> FieldHas(x, fields[i], q, optional).Some?) ==>
      r == Some(exists i :: 0 <= i < |fields| && FieldHas(x, fields[i], q, optional) == Some(true))
  {
    if fields == [] then Some(false)
    else match FieldHas(x, fields[0], q, optional)
      case None => None
      case Some(hit) =>
        if hit then Some(true)
        else
          var rest := AnyHas(x, fields[1..], q, optional);
          assert forall i :: 0 < i < |fields| ==> fields[i] == fields[1..][i - 1];
          rest
  }

  /** The filter callback for a query, lowercased once. */
  function Matcher(fields: seq<string>, search: string, optional: bool): JsVal -> Option<bool> {
    x => AnyHas(x, fields, Lower(search), optional)
  }

  /** `list.filter(x => x.f1...includes(q) || x.f2... )`. */
  function SearchFilter(list: seq<JsVal>, fields: seq<string>, search: string, optional: bool): (r: Option<seq<JsVal>>)
    ensures r.Some? ==> IsSubseq(r.value, list)
    ensures r.Some? ==> forall i :: 0 <= i < |list| ==> (list[i] in r.value <== Matcher(fields, search, optional)(list[i]) == Some(true))
    ensures r.Some? ==> forall i :: 0 <= i < |r.value| ==> Matcher(fields, search, optional)(r.value[i]) == Some(true)
  {
    var r := TryFilter(list, Matcher(fields, search, optional));
    if r.Some? then FilterIsSubseq(list, Passes(Matcher(fields, search, optional))); r else r
  }

  /** Some field of the record is text containing q once lowercased. */
  predicate HasText(x: JsVal, fields: seq<string>, q: string) {
    x.Obj? && exists i :: 0 <= i < |fields| && Get(x.fields, fields[i]).Str? && Contains(Lower(Get(x.fields, fields[i]).s), q)
  }

  /** A record on which the search cannot throw: every searched field is a
      string, or, with optional chaining, possibly missing. */
  predicate Readable(x: JsVal, fields: seq<string>, optional: bool) {
    x.Obj? && forall i :: 0 <= i < |fields| ==> Get(x.fields, fields[i]).Str? || (optional && Nullish(Get(x.fields, fields[i])))
  }

  /** Over readable records the search never throws and keeps, in order,
      exactly the records with a field containing the query. */
  lemma SearchOverText(list: seq<JsVal>, fields: seq<string>, search: string, optional: bool)
    requires forall k :: 0 <= k < |list| ==> Readable(list[k], fields, optional)
    ensures SearchFilter(list, fields, search, optional) == Some(Filter(list, x => HasText(x, fields, Lower(search))))
  {
    var m := Matcher(fields, search, optional);
    var q := Lower(search);
    forall k | 0 <= k < |list|
      ensures m(list[k]) == Some(HasText(list[k], fields, q))
    {
      var x := list[k];
      assert forall i :: 0 <= i < |fields| ==> FieldHas(x, fields[i], q, optional).Some?;
    }
    assert forall k :: 0 <= k < |list| ==> m(list[k]).Some?;
    FilterCongruent(list, Passes(m), x => HasText(x, fields, q));
  }

  /** Some searched field is present as a string. */
  predicate HasSomeField(x: JsVal, fields: seq<string>) {
    x.Obj? && exists i :: 0 <= i < |fields| && Get(x.fields, fields[i]).Str?
  }

  /** With optional chaining an empty query keeps exactly the readable
      records that have at least one searched field. */
  lemma EmptyOptionalSearch(list: seq<JsVal>, fields: seq<string>)
    requires forall k :: 0 <= k < |list| ==> Readable(list[k], fields, true)
    ensures SearchFilter(list, fields, "", true) == Some(Filter(list, x => HasSomeField(x, fields)))
  {
    SearchOverText(list, fields, "", true);
    assert Lower("") == "";
    forall x | x in list
      ensures HasText(x, fields, "") == HasSomeField(x, fields)
    {
      if HasSomeField(x, fields) {
        var i :| 0 <= i < |fields| && Get(x.fields, fields[i]).Str?;
        ContainsEmpty(Lower(Get(x.fields, fields[i]).s));
      }
    }
    FilterCongruent(list, x => HasText(x, fields, ""), x => HasSomeField(x, fields));
  }

  /** An empty query keeps every record whose first searched field is a
      string: that field contains "" and `||` stops there. */
  lemma {:induction false} EmptySearchKeepsAll(list: seq<JsVal>, fields: seq<string>, optional: bool)
    requires |fields| > 0
    requires forall k :: 0 <= k < |list| ==> list[k].Obj? && Get(list[k].fields, fields[0]).Str?
    ensures SearchFilter(list, fields, "", optional) == Some(list)
  {
    var m := Matcher(fields, "", optional);
    assert Lower("") == "";
    forall k | 0 <= k < |list|
      ensures m(list[k]) == Some(true)
    {
      ContainsEmpty(Lower(Get(list[k].fields, fields[0]).s));
    }
    FilterAll(list, Passes(m));
  }

  /** With optional chaining, a record none of whose searched fields is
      present is never a hit, whatever the query. */
  lemma NoFieldsNoHit(x: JsVal, fields: seq<string>, search: string)
    requires x.Obj? && forall i :: 0 <= i < |fields| ==> fields[i] !in x.fields
    ensures Matcher(fields, search, true)(x) == Some(false)
  {
    assert forall i :: 0 <= i < |fields| ==> FieldHas(x, fields[i], Lower(search), true) == Some(false);
  }

  /** Fields outside the list are never looked at: two records that agree
      on the searched fields get the same answer. */
  lemma {:induction false} OnlyListedFieldsSearched(x: Record, y: Record, fields: seq<string>, q: string, optional: bool)
    requires forall i :: 0 <= i < |fields| ==> Get(x, fields[i]) == Get(y, fields[i])
    ensures AnyHas(Obj(x), fields, q, optional) == AnyHas(Obj(y), fields, q, optional)
  {
    if fields != [] {
      OnlyListedFieldsSearched(x, y, fields[1..], q, optional);
    }
  }
}
