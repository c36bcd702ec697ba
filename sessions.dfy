/** The driver-session report: login/logout records grouped by driver, cab
    and calendar day, with the minutes and number of sessions per group,
    a search box over the groups and a CSV download. */
module Sessions {

  import opened Wrappers
  import opened Text
  import opened Js
  import opened Seqs

  /** One session record as the report reads it. The timestamps are already
      parsed to milliseconds since the epoch; `logoutMs` is None when the
      record's `logoutTime` is missing or empty (the session is still open). */
  datatype Session = Session(driverId: JsVal, cabNumber: JsVal, loginMs: int, logoutMs: Option<int>)

  /** One row of the report. */
  datatype SessionGroup = SessionGroup(
    driverId: JsVal,
    cabNumber: JsVal,
    day: string,
    totalMinutes: int,
    sessionCount: nat)

  const MsPerMinute: int := 60000

  /** The cab shown for a session: its cab number, or "N/A" when that is falsy. */
  function CabLabel(s: Session): JsVal {
    Or(s.cabNumber, Str("N/A"))
  }

  /** The grouping key: driver id, cab label and login day joined by "-".
      `dayOf` renders a timestamp as its UTC calendar day ("YYYY-MM-DD"). */
  function Key(s: Session, dayOf: int -> string): string {
    ToStr(s.driverId) + "-" + ToStr(CabLabel(s)) + "-" + dayOf(s.loginMs)
  }

  /** Where a session's duration is measured to: its logout, or `now` while open. */
  function EndMs(s: Session, now: int): int {
    if s.logoutMs.Some? then s.logoutMs.value else now
  }

  /** Whole minutes of a session, rounded down (Math.floor of the
      milliseconds over 60000). */
  function Minutes(s: Session, now: int): int {
    (EndMs(s, now) - s.loginMs) / MsPerMinute
  }

  /** The minutes are the floor of the elapsed time: the largest m with
      m * 60000 <= elapsed. They are negative exactly when the end lies
      before the login. */
  lemma MinutesFloor(s: Session, now: int)
    ensures var m := Minutes(s, now);
      m * MsPerMinute <= EndMs(s, now) - s.loginMs < (m + 1) * MsPerMinute
    ensures Minutes(s, now) < 0 <==> EndMs(s, now) < s.loginMs
  {
  }

  /** The dictionary the report builds, with its keys in insertion order. */
  datatype Grouping = Grouping(keys: seq<string>, groups: map<string, SessionGroup>)

  predicate DistinctKeys(keys: seq<string>) {
    forall i, j :: 0 <= i < j < |keys| ==> keys[i] != keys[j]
  }

  /** The grouping key as a function of the session. */
  function KeyOf(dayOf: int -> string): Session -> string {
    s => Key(s, dayOf)
  }

  /** Folding one session into the dictionary under key `keyOf(s)`: a new
      key opens a group with that session's driver, cab and day; a known key
      adds to its totals. */
  function AddSession(g: Grouping, s: Session, now: int, dayOf: int -> string, keyOf: Session -> string): Grouping {
    var k := keyOf(s);
    if k in g.groups then
      var prior := g.groups[k];
      Grouping(g.keys, g.groups[k := prior.(totalMinutes := prior.totalMinutes + Minutes(s, now),
                                          sessionCount := prior.sessionCount + 1)])
    else
      Grouping(g.keys + [k], g.groups[k := SessionGroup(s.driverId, CabLabel(s), dayOf(s.loginMs), Minutes(s, now), 1)])
  }

  /** The dictionary after the first n sessions have been folded in, in
      order. The facts below hold for any key function; the report uses
      `KeyOf(dayOf)`. */
  function GroupPrefix(ss: seq<Session>, n: nat, now: int, dayOf: int -> string, keyOf: Session -> string): Grouping
    requires n <= |ss|
  {
    if n == 0 then Grouping([], map[])
    else AddSession(GroupPrefix(ss, n - 1, now, dayOf, keyOf), ss[n - 1], now, dayOf, keyOf)
  }

  /** The report's dictionary after every session has been folded in. */
  function GroupAll(ss: seq<Session>, now: int, dayOf: int -> string): Grouping {
    GroupPrefix(ss, |ss|, now, dayOf, KeyOf(dayOf))
  }

  /** The insertion order lists every key of the dictionary exactly once. */
  lemma {:induction false} PrefixKeys(ss: seq<Session>, n: nat, now: int, dayOf: int -> string, keyOf: Session -> string)
    requires n <= |ss|
    ensures var g := GroupPrefix(ss, n, now, dayOf, keyOf);
      DistinctKeys(g.keys) && forall k :: k in g.groups <==> k in g.keys
  {
    if n > 0 {
      PrefixKeys(ss, n - 1, now, dayOf, keyOf);
    }
  }

  /** After n sessions, every one of their keys names a group, and every
      group's key is one of theirs. */
  lemma {:induction false} PrefixSessionKeys(ss: seq<Session>, n: nat, now: int, dayOf: int -> string, keyOf: Session -> string)
    requires n <= |ss|
    ensures var g := GroupPrefix(ss, n, now, dayOf, keyOf);
      && (forall i :: 0 <= i < n ==> keyOf(ss[i]) in g.groups)
      && (forall k :: k in g.groups ==> exists i :: 0 <= i < n && keyOf(ss[i]) == k)
  {
    if n > 0 {
      PrefixSessionKeys(ss, n - 1, now, dayOf, keyOf);
      var prev := GroupPrefix(ss, n - 1, now, dayOf, keyOf);
      var g := GroupPrefix(ss, n, now, dayOf, keyOf);
      assert g.groups.Keys == prev.groups.Keys + {keyOf(ss[n - 1])};
      forall k | k in g.groups
        ensures exists i :: 0 <= i < n && keyOf(ss[i]) == k
      {
        if k != keyOf(ss[n - 1]) {
          var i :| 0 <= i < n - 1 && keyOf(ss[i]) == k;
        }
      }
    }
  }

  /** One group per distinct key: the report's keys are distinct, and they
      are exactly the keys of the sessions. */
  lemma GroupAllKeys(ss: seq<Session>, now: int, dayOf: int -> string)
    ensures var g := GroupAll(ss, now, dayOf);
      && DistinctKeys(g.keys)
      && (forall k :: k in g.groups <==> k in g.keys)
      && (forall i :: 0 <= i < |ss| ==> Key(ss[i], dayOf) in g.groups)
      && (forall k :: k in g.groups ==> exists i :: 0 <= i < |ss| && Key(ss[i], dayOf) == k)
  {
    PrefixKeys(ss, |ss|, now, dayOf, KeyOf(dayOf));
    PrefixSessionKeys(ss, |ss|, now, dayOf, KeyOf(dayOf));
  }

  /** `Object.values(groups)`: the groups in key-insertion order. Every key
      contains "-", so none is an array index and insertion order applies. */
  function Values(g: Grouping): seq<SessionGroup>
    requires forall k :: k in g.keys ==> k in g.groups
  {
    seq(|g.keys|, i requires 0 <= i < |g.keys| => g.groups[g.keys[i]])
  }

  /** The report rows for a list of sessions. */
  function Grouped(ss: seq<Session>, now: int, dayOf: int -> string): seq<SessionGroup> {
    PrefixKeys(ss, |ss|, now, dayOf, KeyOf(dayOf));
    Values(GroupAll(ss, now, dayOf))
  }

  /** The body of the `forEach` callback: works out the session's day,
      cab, key and minutes, then bumps the group with that key or opens a
      new one. */
  method FoldSession(groups: map<string, SessionGroup>, order: seq<string>, session: Session, now: int, dayOf: int -> string)
    returns (groups': map<string, SessionGroup>, order': seq<string>)
    ensures Grouping(order', groups') == AddSession(Grouping(order, groups), session, now, dayOf, KeyOf(dayOf))
  {
    var dayKey := dayOf(session.loginMs);
    var cabNumber := Or(session.cabNumber, Str("N/A"));
    var groupKey := ToStr(session.driverId) + "-" + ToStr(cabNumber) + "-" + dayKey;
    var duration := 0;
    if session.logoutMs.Some? {
      duration := (session.logoutMs.value - session.loginMs) / MsPerMinute;
    } else {
      duration := (now - session.loginMs) / MsPerMinute;
    }
    assert groupKey == KeyOf(dayOf)(session);
    if groupKey in groups {
      var prior := groups[groupKey];
      groups' := groups[groupKey := prior.(totalMinutes := prior.totalMinutes + duration,
                                         sessionCount := prior.sessionCount + 1)];
      order' := order;
    } else {
      groups' := groups[groupKey := SessionGroup(session.driverId, cabNumber, dayKey, duration, 1)];
      order' := order + [groupKey];
    }
  }

  /** The grouping effect: one pass over the sessions that updates a
      dictionary in place, then `Object.values`. */
  method GroupSessions(sessions: seq<Session>, now: int, dayOf: int -> string) returns (grouped: seq<SessionGroup>)
    ensures grouped == Grouped(sessions, now, dayOf)
  {
    var groups: map<string, SessionGroup> := map[];
    var order: seq<string> := [];
    var i := 0;
    while i < |sessions|
      invariant 0 <= i <= |sessions|
      invariant Grouping(order, groups) == GroupPrefix(sessions, i, now, dayOf, KeyOf(dayOf))
    {
      groups, order := FoldSession(groups, order, sessions[i], now, dayOf);
      i := i + 1;
    }
    PrefixKeys(sessions, |sessions|, now, dayOf, KeyOf(dayOf));
    grouped := seq(|order|, j requires 0 <= j < |order| => groups[order[j]]);
  }

  // ---------------------------------------------------------------------
  // What the grouping promises

  /** The test "this session has key k", and a session's minutes, as values
      to filter and sum with. */
  function HasKey(k: string, keyOf: Session -> string): Session -> bool {
    s => keyOf(s) == k
  }

  function MinutesAt(now: int): Session -> int {
    s => Minutes(s, now)
  }

  lemma {:induction false} PrefixTotals(ss: seq<Session>, n: nat, now: int, dayOf: int -> string, keyOf: Session -> string, k: string)
    requires n <= |ss|
    requires k in GroupPrefix(ss, n, now, dayOf, keyOf).groups
    ensures var mine := Filter(ss[..n], HasKey(k, keyOf));
      && GroupPrefix(ss, n, now, dayOf, keyOf).groups[k].totalMinutes == Sum(mine, MinutesAt(now))
      && GroupPrefix(ss, n, now, dayOf, keyOf).groups[k].sessionCount == |mine|
  {
    var p := HasKey(k, keyOf);
    var prev := GroupPrefix(ss, n - 1, now, dayOf, keyOf);
    var last := ss[n - 1];
    assert ss[..n] == ss[..n - 1] + [last];
    FilterAppend(ss[..n - 1], [last], p);
    assert [last][1..] == [];
    SumAppend(Filter(ss[..n - 1], p), Filter([last], p), MinutesAt(now));
    if k in prev.groups {
      PrefixTotals(ss, n - 1, now, dayOf, keyOf, k);
    } else {
      PrefixSessionKeys(ss, n - 1, now, dayOf, keyOf);
      FilterNone(ss[..n - 1], p);
    }
  }

  /** A group's total is the sum of the minutes of the sessions with its
      key, and its count is the number of those sessions. */
  lemma GroupTotals(ss: seq<Session>, now: int, dayOf: int -> string, k: string)
    requires k in GroupAll(ss, now, dayOf).groups
    ensures var mine := Filter(ss, HasKey(k, KeyOf(dayOf)));
      && GroupAll(ss, now, dayOf).groups[k].totalMinutes == Sum(mine, MinutesAt(now))
      && GroupAll(ss, now, dayOf).groups[k].sessionCount == |mine|
  {
    PrefixTotals(ss, |ss|, now, dayOf, KeyOf(dayOf), k);
    assert ss[..|ss|] == ss;
  }

  /** Sum of the session counts over a list of keys. */
  function CountOver(keys: seq<string>, groups: map<string, SessionGroup>): nat
    requires forall k :: k in keys ==> k in groups
  {
    if keys == [] then 0 else groups[keys[0]].sessionCount + CountOver(keys[1..], groups)
  }

  lemma {:induction false} CountOverSnoc(keys: seq<string>, groups: map<string, SessionGroup>, k: string)
    requires forall x :: x in keys + [k] ==> x in groups
    ensures CountOver(keys + [k], groups) == CountOver(keys, groups) + groups[k].sessionCount
  {
    if keys != [] {
      assert (keys + [k])[1..] == keys[1..] + [k];
      CountOverSnoc(keys[1..], groups, k);
    }
  }

  lemma {:induction false} CountOverUpdate(keys: seq<string>, groups: map<string, SessionGroup>, k: string, g: SessionGroup)
    requires forall x :: x in keys ==> x in groups
    requires DistinctKeys(keys)
    ensures k in keys ==> CountOver(keys, groups[k := g]) == CountOver(keys, groups) - groups[k].sessionCount + g.sessionCount
    ensures k !in keys ==> CountOver(keys, groups[k := g]) == CountOver(keys, groups)
  {
    if keys != [] {
      CountOverUpdate(keys[1..], groups, k, g);
      if keys[0] == k {
        assert k !in keys[1..];
      }
    }
  }

  /** One fold step adds one to the sum of the session counts. */
  lemma AddSessionCounts(g: Grouping, s: Session, now: int, dayOf: int -> string, keyOf: Session -> string)
    requires DistinctKeys(g.keys) && forall k :: k in g.groups <==> k in g.keys
    ensures var h := AddSession(g, s, now, dayOf, keyOf);
      (forall k :: k in h.keys ==> k in h.groups) && CountOver(h.keys, h.groups) == CountOver(g.keys, g.groups) + 1
  {
    var k := keyOf(s);
    if k in g.groups {
      var prior := g.groups[k];
      CountOverUpdate(g.keys, g.groups, k, prior.(totalMinutes := prior.totalMinutes + Minutes(s, now),
                                                   sessionCount := prior.sessionCount + 1));
    } else {
      var created := SessionGroup(s.driverId, CabLabel(s), dayOf(s.loginMs), Minutes(s, now), 1);
      CountOverUpdate(g.keys, g.groups, k, created);
      CountOverSnoc(g.keys, g.groups[k := created], k);
    }
  }

  lemma {:induction false} PrefixCounts(ss: seq<Session>, n: nat, now: int, dayOf: int -> string, keyOf: Session -> string)
    requires n <= |ss|
    ensures var g := GroupPrefix(ss, n, now, dayOf, keyOf);
      (forall k :: k in g.keys ==> k in g.groups) && CountOver(g.keys, g.groups) == n
  {
    if n > 0 {
      PrefixCounts(ss, n - 1, now, dayOf, keyOf);
      PrefixKeys(ss, n - 1, now, dayOf, keyOf);
      AddSessionCounts(GroupPrefix(ss, n - 1, now, dayOf, keyOf), ss[n - 1], now, dayOf, keyOf);
    }
  }

  /** One fold step keeps every group non-empty. */
  lemma AddSessionNonEmpty(g: Grouping, s: Session, now: int, dayOf: int -> string, keyOf: Session -> string)
    requires forall k :: k in g.groups ==> g.groups[k].sessionCount >= 1
    ensures var h := AddSession(g, s, now, dayOf, keyOf);
      forall k :: k in h.groups ==> h.groups[k].sessionCount >= 1
  {
  }

  lemma {:induction false} PrefixNonEmpty(ss: seq<Session>, n: nat, now: int, dayOf: int -> string, keyOf: Session -> string)
    requires n <= |ss|
    ensures forall k :: k in GroupPrefix(ss, n, now, dayOf, keyOf).groups ==> GroupPrefix(ss, n, now, dayOf, keyOf).groups[k].sessionCount >= 1
  {
    if n > 0 {
      PrefixNonEmpty(ss, n - 1, now, dayOf, keyOf);
      AddSessionNonEmpty(GroupPrefix(ss, n - 1, now, dayOf, keyOf), ss[n - 1], now, dayOf, keyOf);
    }
  }

  lemma {:induction false} CountAtLeastKeys(keys: seq<string>, groups: map<string, SessionGroup>)
    requires forall k :: k in keys ==> k in groups && groups[k].sessionCount >= 1
    ensures CountOver(keys, groups) >= |keys|
  {
    if keys != [] {
      CountAtLeastKeys(keys[1..], groups);
    }
  }

  /** The session counts of the report's rows add up to the number of
      sessions, every row counts at least one session, and so there are at
      most as many rows as sessions. */
  lemma CountsCoverSessions(ss: seq<Session>, now: int, dayOf: int -> string)
    ensures var g := GroupAll(ss, now, dayOf);
      && (forall k :: k in g.keys ==> k in g.groups)
      && CountOver(g.keys, g.groups) == |ss|
      && (forall k :: k in g.groups ==> g.groups[k].sessionCount >= 1)
    ensures |Grouped(ss, now, dayOf)| <= |ss|
  {
    var g := GroupAll(ss, now, dayOf);
    PrefixCounts(ss, |ss|, now, dayOf, KeyOf(dayOf));
    PrefixNonEmpty(ss, |ss|, now, dayOf, KeyOf(dayOf));
    CountAtLeastKeys(g.keys, g.groups);
  }

  /** i is the first session with its key. */
  predicate FirstWithKey(ss: seq<Session>, i: int, keyOf: Session -> string) {
    0 <= i < |ss| && forall j :: 0 <= j < i ==> keyOf(ss[j]) != keyOf(ss[i])
  }

  lemma {:induction false} PrefixFromFirst(ss: seq<Session>, n: nat, now: int, dayOf: int -> string, keyOf: Session -> string, i: int)
    requires n <= |ss| && FirstWithKey(ss, i, keyOf) && i < n
    ensures keyOf(ss[i]) in GroupPrefix(ss, n, now, dayOf, keyOf).groups
    ensures var g := GroupPrefix(ss, n, now, dayOf, keyOf).groups[keyOf(ss[i])];
      g.driverId == ss[i].driverId && g.cabNumber == CabLabel(ss[i]) && g.day == dayOf(ss[i].loginMs)
  {
    if i == n - 1 {
      PrefixSessionKeys(ss, n - 1, now, dayOf, keyOf);
      assert keyOf(ss[i]) !in GroupPrefix(ss, n - 1, now, dayOf, keyOf).groups;
    } else {
      PrefixFromFirst(ss, n - 1, now, dayOf, keyOf, i);
    }
  }

  /** A group's driver, cab and day are those of the first session with its
      key; later sessions never overwrite them. */
  lemma GroupFromFirstSession(ss: seq<Session>, now: int, dayOf: int -> string, i: int)
    requires FirstWithKey(ss, i, KeyOf(dayOf))
    ensures Key(ss[i], dayOf) in GroupAll(ss, now, dayOf).groups
    ensures var g := GroupAll(ss, now, dayOf).groups[Key(ss[i], dayOf)];
      g.driverId == ss[i].driverId && g.cabNumber == CabLabel(ss[i]) && g.day == dayOf(ss[i].loginMs)
  {
    PrefixFromFirst(ss, |ss|, now, dayOf, KeyOf(dayOf), i);
  }

  /** Folding in more sessions only appends keys. */
  lemma {:induction false} KeysGrowByAppending(ss: seq<Session>, m: nat, n: nat, now: int, dayOf: int -> string, keyOf: Session -> string)
    requires m <= n <= |ss|
    ensures GroupPrefix(ss, m, now, dayOf, keyOf).keys <= GroupPrefix(ss, n, now, dayOf, keyOf).keys
  {
    if m < n {
      KeysGrowByAppending(ss, m, n - 1, now, dayOf, keyOf);
    }
  }

  /** Groups come out in the order in which their keys first occur: if
      session i is the first with its key and session j the first with
      another, later key, the first key comes earlier. */
  lemma GroupOrder(ss: seq<Session>, now: int, dayOf: int -> string, i: int, j: int, a: int, b: int)
    requires FirstWithKey(ss, i, KeyOf(dayOf)) && FirstWithKey(ss, j, KeyOf(dayOf)) && i < j
    requires 0 <= a < |GroupAll(ss, now, dayOf).keys| && GroupAll(ss, now, dayOf).keys[a] == Key(ss[i], dayOf)
    requires 0 <= b < |GroupAll(ss, now, dayOf).keys| && GroupAll(ss, now, dayOf).keys[b] == Key(ss[j], dayOf)
    ensures a < b
  {
    var keyOf := KeyOf(dayOf);
    var keys := GroupAll(ss, now, dayOf).keys;
    var pre := GroupPrefix(ss, j, now, dayOf, keyOf);
    KeysGrowByAppending(ss, j, |ss|, now, dayOf, keyOf);
    PrefixKeys(ss, j, now, dayOf, keyOf);
    PrefixSessionKeys(ss, j, now, dayOf, keyOf);
    PrefixKeys(ss, |ss|, now, dayOf, keyOf);
    assert keyOf(ss[j]) !in pre.groups;
    assert forall x :: 0 <= x < |pre.keys| ==> keys[x] != keyOf(ss[j]);
    assert keyOf(ss[i]) in pre.keys;
    var c :| 0 <= c < |pre.keys| && pre.keys[c] == keyOf(ss[i]);
    assert keys[c] == keys[a];
  }

  // ---------------------------------------------------------------------
  // Examples

  /** The day function of sessions that all fall on day d. */
  function ConstDay(d: string): int -> string {
    ms => d
  }

  /** Two sessions of driver 1 in cab "12" on 2024-01-01, of 30 and 10
      minutes, give one row of 40 minutes over 2 sessions. */
  lemma TwoSessionsOneRow(now: int)
    ensures
      var login := 1704103200000;
      Grouped([Session(Num(1), Str("12"), login, Some(login + 1800000)),
               Session(Num(1), Str("12"), login + 3600000, Some(login + 4200000))], now, ConstDay("2024-01-01"))
      == [SessionGroup(Num(1), Str("12"), "2024-01-01", 40, 2)]
  {
    var dayOf := ConstDay("2024-01-01");
    var login := 1704103200000;
    var s1 := Session(Num(1), Str("12"), login, Some(login + 1800000));
    var s2 := Session(Num(1), Str("12"), login + 3600000, Some(login + 4200000));
    var ss := [s1, s2];
    var k := Key(s1, dayOf);
    assert Key(s2, dayOf) == k;
    assert CabLabel(s1) == Str("12");
    assert Minutes(s1, now) == 30 && Minutes(s2, now) == 10;
    assert GroupPrefix(ss, 1, now, dayOf, KeyOf(dayOf)) == Grouping([k], map[k := SessionGroup(Num(1), Str("12"), "2024-01-01", 30, 1)]);
    assert GroupAll(ss, now, dayOf) == Grouping([k], map[k := SessionGroup(Num(1), Str("12"), "2024-01-01", 40, 2)]);
  }

  /** The key is a string, not a tuple: driver "7-A" in cab "B" and driver
      "7" in cab "A-B" on the same day share the key "7-A-B-<day>" and so
      one row, which carries the first session's driver and cab. */
  lemma DashInIdsMergesGroups(day: string, now: int)
    ensures
      var s1 := Session(Str("7-A"), Str("B"), 0, Some(60000));
      var s2 := Session(Str("7"), Str("A-B"), 0, Some(120000));
      Grouped([s1, s2], now, ConstDay(day)) == [SessionGroup(Str("7-A"), Str("B"), day, 3, 2)]
  {
    var dayOf := ConstDay(day);
    var s1 := Session(Str("7-A"), Str("B"), 0, Some(60000));
    var s2 := Session(Str("7"), Str("A-B"), 0, Some(120000));
    var ss := [s1, s2];
    var k := "7-A-B-" + day;
    assert Key(s1, dayOf) == k;
    assert Key(s2, dayOf) == k;
    assert Minutes(s1, now) == 1 && Minutes(s2, now) == 2;
    assert GroupPrefix(ss, 1, now, dayOf, KeyOf(dayOf)) == Grouping([k], map[k := SessionGroup(Str("7-A"), Str("B"), day, 1, 1)]);
    assert GroupAll(ss, now, dayOf) == Grouping([k], map[k := SessionGroup(Str("7-A"), Str("B"), day, 3, 2)]);
  }

  // ---------------------------------------------------------------------
  // Search

  /** A row on which the search expression does not throw: `driver_id` has
      a `toString` and the cab label is a string. */
  predicate Searchable(g: SessionGroup) {
    !Nullish(g.driverId) && g.cabNumber.Str?
  }

  /** The search test: an empty term passes everything; otherwise the
      lowercased term must occur in the driver id as written, or in the
      lowercased cab or day. */
  predicate GroupMatches(g: SessionGroup, searchTerm: string) {
    searchTerm == ""
    || (var q := Lower(searchTerm);
        Contains(ToStr(g.driverId), q) || Contains(Lower(ToStr(g.cabNumber)), q) || Contains(Lower(g.day), q))
  }

  /** `filteredGroups`. */
  function FilterGroups(groups: seq<SessionGroup>, searchTerm: string): (r: seq<SessionGroup>)
    requires searchTerm != "" ==> forall i :: 0 <= i < |groups| ==> Searchable(groups[i])
    ensures IsSubseq(r, groups)
    ensures forall i :: 0 <= i < |groups| ==> (groups[i] in r <==> GroupMatches(groups[i], searchTerm))
    ensures searchTerm == "" ==> r == groups
  {
    var p := (g: SessionGroup) => GroupMatches(g, searchTerm);
    FilterIsSubseq(groups, p);
    if searchTerm == "" then FilterAll(groups, p); Filter(groups, p) else Filter(groups, p)
  }

  /** The search is case-insensitive on the cab: "AB1" finds cab "cab1". */
  lemma SearchIgnoresCase(g: SessionGroup)
    requires g.cabNumber == Str("cab1")
    ensures GroupMatches(g, "AB1")
  {
    assert Lower("AB1") == "ab1";
    assert Lower("cab1") == "cab1";
    assert "ab1" <= "cab1"[1..];
  }

  // ---------------------------------------------------------------------
  // CSV download

  /** The header line, a literal in the source. */
  const CsvHeaderLine: string := "driver_id,cabNumber," + "day,totalMinutes,sessionCount"

  /** One CSV line: the five fields joined by commas, with no quoting. */
  function CsvRow(g: SessionGroup): string {
    JoinValues([g.driverId, g.cabNumber, Str(g.day), Num(g.totalMinutes), Num(g.sessionCount)], ",")
  }

  function CsvRows(groups: seq<SessionGroup>): seq<string> {
    Map(groups, CsvRow)
  }

  /** The downloaded file: the header and one line per group, each line
      ended by a newline. */
  function CsvText(groups: seq<SessionGroup>): string {
    CsvHeaderLine + "\n" + Lines(CsvRows(groups))
  }

  /** One more group adds its line at the end of the file. */
  lemma CsvTextSnoc(groups: seq<SessionGroup>, g: SessionGroup)
    ensures CsvText(groups + [g]) == CsvText(groups) + CsvRow(g) + "\n"
  {
    MapSnoc(groups, g, CsvRow);
    LinesSnoc(CsvRows(groups), CsvRow(g));
  }

  /** `downloadCSV`: the header, then `csvContent += row + "\n"` per group. */
  method DownloadCsv(groups: seq<SessionGroup>) returns (csv: string)
    ensures csv == CsvText(groups)
  {
    csv := CsvHeaderLine + "\n";
    assert groups[..0] == [];
    var i := 0;
    while i < |groups|
      invariant 0 <= i <= |groups|
      invariant csv == CsvText(groups[..i])
    {
      var row := JoinValues([groups[i].driverId, groups[i].cabNumber, Str(groups[i].day),
                             Num(groups[i].totalMinutes), Num(groups[i].sessionCount)], ",");
      assert groups[..i + 1] == groups[..i] + [groups[i]];
      CsvTextSnoc(groups[..i], groups[i]);
      csv := csv + row + "\n";
      i := i + 1;
    }
    assert groups[..i] == groups;
  }

  lemma HeaderHasNoNewline()
    ensures '\n' !in CsvHeaderLine
  {
    assert '\n' !in "driver_id,cabNumber,";
  }

  /** Read back line by line, the file is the header, one line per group in
      order, and an empty last line, provided no field holds a newline. */
  lemma CsvLines(groups: seq<SessionGroup>)
    requires forall i :: 0 <= i < |groups| ==> '\n' !in CsvRow(groups[i])
    ensures Split(CsvText(groups), '\n') == [CsvHeaderLine] + CsvRows(groups) + [""]
  {
    HeaderHasNoNewline();
    SplitLines(CsvHeaderLine, CsvRows(groups));
  }

  lemma NumberHasNoComma(n: int)
    ensures ',' !in IntToString(n) && '\n' !in IntToString(n)
  {
    var s := IntToString(n);
    assert forall i :: 0 <= i < |s| ==> s[i] != ',' && s[i] != '\n';
  }

  /** Split at commas, a row gives back its five fields, as long as the
      driver id, cab and day hold no comma. */
  lemma CsvRowFields(g: SessionGroup)
    requires ',' !in JoinField(g.driverId) && ',' !in JoinField(g.cabNumber) && ',' !in g.day
    ensures Split(CsvRow(g), ',') ==
      [JoinField(g.driverId), JoinField(g.cabNumber), g.day, IntToString(g.totalMinutes), IntToString(g.sessionCount)]
  {
    var vs := [g.driverId, g.cabNumber, Str(g.day), Num(g.totalMinutes), Num(g.sessionCount)];
    var parts := seq(|vs|, i requires 0 <= i < |vs| => JoinField(vs[i]));
    NumberHasNoComma(g.totalMinutes);
    NumberHasNoComma(g.sessionCount);
    assert parts == [JoinField(g.driverId), JoinField(g.cabNumber), g.day, IntToString(g.totalMinutes), IntToString(g.sessionCount)];
    SplitJoin(parts, ',');
  }
}
