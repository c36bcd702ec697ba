/** What the list pages share: the edit record kept while a row is being
    edited, the date cells of their tables and the update request they
    send. */
module Forms {

  import opened Wrappers
  import opened Text
  import opened Js

  /** An update request: the URL it is sent to and its JSON body. */
  datatype Put = Put(url: string, body: Record)

  /** Appending `/` and a segment without slashes adds exactly that
      segment to the URL's path. */
  lemma AppendSegment(base: string, segment: string)
    requires '/' !in segment
    ensures Split(base + "/" + segment, '/') == Split(base, '/') + [segment]
  {
    assert base + "/" + segment == base + ['/'] + segment;
    SplitConcat(base, '/', segment);
    SplitNoSeparator(segment, '/');
  }

  /** The update an edit dialog sends: the edit record itself, to the edit
      endpoint followed by `/` and the record's id field. */
  function UpdateById(endpoint: string, edit: Record, idField: string): (p: Put)
    ensures p.body == edit
    ensures p.url == endpoint + "/" + ToStr(Get(edit, idField))
  {
    Put(endpoint + "/" + ToStr(Get(edit, idField)), edit)
  }

  /** The request is addressed by the record's id: it is the last segment
      of the URL's path whenever it holds no slash. */
  lemma UrlEndsWithId(endpoint: string, edit: Record, idField: string)
    requires '/' !in ToStr(Get(edit, idField))
    ensures Split(UpdateById(endpoint, edit, idField).url, '/') == Split(endpoint, '/') + [ToStr(Get(edit, idField))]
  {
    AppendSegment(endpoint, ToStr(Get(edit, idField)));
  }

  function Min(a: int, b: int): int { if a < b then a else b }

  /** `dateStr?.slice(0, 10)`: the first ten characters of a string (or
      elements of an array); null and undefined give undefined. None is the
      TypeError of calling `slice` on a value that has none. */
  function FormatDate(v: JsVal): (r: Option<JsVal>)
    ensures r.None? <==> !(Nullish(v) || v.Str? || v.Arr?)
    ensures Nullish(v) ==> r == Some(Undef)
    ensures v.Str? ==> r.Some? && r.value.Str? && r.value.s <= v.s && |r.value.s| == Min(10, |v.s|)
    ensures v.Arr? ==> r.Some? && r.value.Arr? && r.value.items <= v.items && |r.value.items| == Min(10, |v.items|)
  {
    match v
    case Undef => Some(Undef)
    case Null => Some(Undef)
    case Str(s) => Some(Str(s[..Min(10, |s|)]))
    case Arr(xs) => Some(Arr(xs[..Min(10, |xs|)]))
    case _ => None
  }

  /** An ISO timestamp is cut down to its date. */
  lemma IsoTimestampToDate(date: string, time: string)
    requires |date| == 10
    ensures FormatDate(Str(date + time)) == Some(Str(date))
  {
    assert (date + time)[..10] == date;
  }

  /** Formatting a formatted date changes nothing more. */
  lemma FormatDateIdempotent(v: JsVal)
    requires v.Str? || v.Arr?
    ensures FormatDate(FormatDate(v).value) == FormatDate(v)
  {
    if v.Str? {
      var t := v.s[..Min(10, |v.s|)];
      assert t[..Min(10, |t|)] == t;
    } else {
      var t := v.items[..Min(10, |v.items|)];
      assert t[..Min(10, |t|)] == t;
    }
  }

  /** `{ ...r, [name]: value }`. */
  function SetField(r: Record, name: string, value: JsVal): (s: Record)
    ensures s.Keys == r.Keys + {name}
    ensures Get(s, name) == value
    ensures forall k :: k != name ==> Get(s, k) == Get(r, k)
  {
    r[name := value]
  }

  /** An edit-form change `setEditData(prev => ({ ...prev, [name]: value }))`:
      spreading a closed (null) edit record contributes nothing. */
  function Patch(prev: Option<Record>, name: string, value: string): (r: Record)
    ensures r.Keys == (if prev.Some? then prev.value.Keys else {}) + {name}
    ensures Get(r, name) == Str(value)
    ensures forall k :: k != name ==> Get(r, k) == (if prev.Some? then Get(prev.value, k) else Undef)
  {
    SetField(prev.GetOr(map[]), name, Str(value))
  }

  /** Two changes to the same field: the later one wins. */
  lemma PatchTwice(prev: Option<Record>, name: string, first: string, second: string)
    ensures Patch(Some(Patch(prev, name, first)), name, second) == Patch(prev, name, second)
  {
    var a := Patch(Some(Patch(prev, name, first)), name, second);
    var b := Patch(prev, name, second);
    assert a.Keys == b.Keys;
    assert forall k | k in a :: a[k] == Get(a, k) == Get(b, k) == b[k];
  }

  /** Changes to different fields commute. */
  lemma PatchCommutes(prev: Option<Record>, n1: string, v1: string, n2: string, v2: string)
    requires n1 != n2
    ensures Patch(Some(Patch(prev, n1, v1)), n2, v2) == Patch(Some(Patch(prev, n2, v2)), n1, v1)
  {
    var a := Patch(Some(Patch(prev, n1, v1)), n2, v2);
    var b := Patch(Some(Patch(prev, n2, v2)), n1, v1);
    assert a.Keys == b.Keys;
    assert forall k | k in a :: a[k] == Get(a, k) == Get(b, k) == b[k];
  }

  /** The rest of an object destructuring, `const { k1, k2, ...rest } = r`. */
  function Without(r: Record, keys: set<string>): (s: Record)
    ensures s.Keys == r.Keys - keys
    ensures forall k :: k !in keys ==> Get(s, k) == Get(r, k)
  {
    map k | k in r && k !in keys :: r[k]
  }

  /** Putting the removed fields back gives the record again. */
  lemma WithoutRestore(r: Record, k1: string, k2: string)
    requires k1 in r && k2 in r
    ensures SetField(SetField(Without(r, {k1, k2}), k1, r[k1]), k2, r[k2]) == r
  {
    var s := SetField(SetField(Without(r, {k1, k2}), k1, r[k1]), k2, r[k2]);
    assert s.Keys == r.Keys;
    assert forall k | k in s :: s[k] == Get(s, k) == Get(r, k) == r[k];
  }
}
