/** The SQL statements of the rollup, and the direct meaning of what they should compute. */
module Queries {
  import opened Options
  import opened Clicks

  /** `clicked_at::date` in a UTC session, as a day number; times are in microseconds. */
  function DayOf(t: int): int {
    t / 86400000000
  }

  /** Midnight UTC at the start of day `d`. */
  function DayStart(d: int): int {
    d * 86400000000
  }

  /** Days follow one another from the epoch on, each 24 hours long. */
  lemma DayMeaning(t: int, d: int)
    ensures DayStart(0) == 0 && DayStart(d + 1) == DayStart(d) + 24 * 60 * 60 * 1000000
    ensures DayOf(t) == d <==> DayStart(d) <= t < DayStart(d + 1)
  {
  }

  datatype StatKey = StatKey(linkId: nat, date: int)

  datatype Column = Country | Referer

  datatype Stat = Stat(clicks: nat, visitors: nat, countries: map<string, nat>, referers: map<string, nat>)
  {
    function Get(col: Column): map<string, nat> {
      if col.Country? then countries else referers
    }

    function Set(col: Column, h: map<string, nat>): Stat {
      if col.Country? then this.(countries := h) else this.(referers := h)
    }
  }

  /** The md5 function of the database, left uninterpreted. */
  type Md5 = string -> string

  function KeyOf(r: LogRow): StatKey {
    StatKey(r.linkId, DayOf(r.clickedAt))
  }

  function ValueIn(col: Column, r: LogRow): Option<string> {
    if col.Country? then r.country else r.referer
  }

  function OrEmpty(s: Option<string>): string {
    match s case Some(v) => v case None => ""
  }

  /** What a visitor's hash is computed from. */
  function VisitorText(r: LogRow): string {
    OrEmpty(r.ip) + OrEmpty(r.userAgent)
  }

  // ---- Counting rows

  function Count(log: seq<LogRow>, p: LogRow -> bool): nat {
    if log == [] then 0 else Count(log[..|log| - 1], p) + if p(log[|log| - 1]) then 1 else 0
  }

  lemma {:induction false} CountSame(log: seq<LogRow>, p: LogRow -> bool, q: LogRow -> bool)
    requires forall r :: r in log ==> p(r) == q(r)
    ensures Count(log, p) == Count(log, q)
  {
    if log != [] {
      CountSame(log[..|log| - 1], p, q);
    }
  }

  lemma {:induction false} CountSplit(log: seq<LogRow>, p: LogRow -> bool, q: LogRow -> bool, u: LogRow -> bool)
    requires forall r :: r in log ==> (p(r) <==> q(r) || u(r)) && !(q(r) && u(r))
    ensures Count(log, p) == Count(log, q) + Count(log, u)
  {
    if log != [] {
      CountSplit(log[..|log| - 1], p, q, u);
    }
  }

  lemma {:induction false} CountWithin(log: seq<LogRow>, p: LogRow -> bool, q: LogRow -> bool)
    requires forall r :: r in log && p(r) ==> q(r)
    ensures Count(log, p) <= Count(log, q) <= |log|
  {
    if log != [] {
      CountWithin(log[..|log| - 1], p, q);
    }
  }

  lemma {:induction false} CountAppend(a: seq<LogRow>, b: seq<LogRow>, p: LogRow -> bool)
    ensures Count(a + b, p) == Count(a, p) + Count(b, p)
  {
    if b == [] {
      assert a + b == a;
    } else {
      assert (a + b)[..|a + b| - 1] == a + b[..|b| - 1];
      CountAppend(a, b[..|b| - 1], p);
    }
  }

  lemma {:induction false} CountPositive(log: seq<LogRow>, p: LogRow -> bool)
    ensures Count(log, p) > 0 <==> exists r :: r in log && p(r)
  {
    if log != [] {
      var n := |log| - 1;
      CountPositive(log[..n], p);
      assert log == log[..n] + [log[n]];
      if Count(log[..n], p) > 0 {
        var r :| r in log[..n] && p(r);
        assert r in log;
      } else if p(log[n]) {
        assert log[n] in log;
      }
    }
  }

  lemma CountPrefix(a: seq<LogRow>, b: seq<LogRow>, p: LogRow -> bool)
    requires a <= b
    ensures Count(a, p) <= Count(b, p)
  {
    assert b == a + b[|a|..];
    CountAppend(a, b[|a|..], p);
  }

  /** The positions of the rows that `p` holds of; `Count` is their number. */
  function Places(log: seq<LogRow>, p: LogRow -> bool): set<nat> {
    set i: nat | i < |log| && p(log[i])
  }

  lemma {:induction false} CountIsPlaces(log: seq<LogRow>, p: LogRow -> bool)
    ensures Count(log, p) == |Places(log, p)|
  {
    if log != [] {
      var n := |log| - 1;
      CountIsPlaces(log[..n], p);
      assert Places(log, p) == Places(log[..n], p) + if p(log[n]) then {n} else {};
    } else {
      assert Places(log, p) == {};
    }
  }

  // ---- The statements: rows of [a, b) grouped by link and day

  predicate InWindow(a: int, b: int, r: LogRow) {
    a <= r.clickedAt < b
  }

  function InGroup(a: int, b: int, k: StatKey): LogRow -> bool {
    (r: LogRow) => InWindow(a, b, r) && KeyOf(r) == k
  }

  function InValueGroup(a: int, b: int, col: Column, k: StatKey, x: string): LogRow -> bool {
    (r: LogRow) => InWindow(a, b, r) && KeyOf(r) == k && ValueIn(col, r) == Some(x)
  }

  function GroupKeys(log: seq<LogRow>, a: int, b: int): set<StatKey> {
    set r | r in log && InWindow(a, b, r) :: KeyOf(r)
  }

  function GroupVisitors(md5: Md5, log: seq<LogRow>, a: int, b: int, k: StatKey): set<string> {
    set r | r in log && InWindow(a, b, r) && KeyOf(r) == k :: md5(VisitorText(r))
  }

  function At(daily: map<StatKey, Stat>, k: StatKey): Option<Stat> {
    if k in daily then Some(daily[k]) else None
  }

  /** INSERT ... ON CONFLICT DO UPDATE: only the two counters of an existing row change. */
  function UpsertDailyClicks(md5: Md5, daily: map<StatKey, Stat>, log: seq<LogRow>, a: int, b: int)
    : map<StatKey, Stat>
  {
    map k | k in daily.Keys + GroupKeys(log, a, b) ::
      if k !in GroupKeys(log, a, b) then daily[k]
      else
        var clicks, visitors := Count(log, InGroup(a, b, k)), |GroupVisitors(md5, log, a, b, k)|;
        if k in daily then daily[k].(clicks := clicks, visitors := visitors)
        else Stat(clicks, visitors, map[], map[])
  }

  /** A row of GetCountryStats or GetRefererStats. */
  datatype HistRow = HistRow(key: StatKey, value: string, cnt: nat)

  function HistRows(log: seq<LogRow>, a: int, b: int, col: Column): set<HistRow> {
    set r | r in log && InWindow(a, b, r) && ValueIn(col, r).Some? ::
      HistRow(KeyOf(r), ValueIn(col, r).value, Count(log, InValueGroup(a, b, col, KeyOf(r), ValueIn(col, r).value)))
  }

  /** SQL returns the groups once each, in any order. */
  ghost predicate IsAnswer(rows: seq<HistRow>, log: seq<LogRow>, a: int, b: int, col: Column) {
    && (forall i, j :: 0 <= i < j < |rows| ==> rows[i] != rows[j])
    && (forall row :: row in rows <==> row in HistRows(log, a, b, col))
  }

  /** UPDATE links ... total_clicks + cnt, over rows strictly after `a`, with no upper bound. */
  function LinkSince(l: nat, a: int): LogRow -> bool {
    (r: LogRow) => r.linkId == l && a < r.clickedAt
  }

  /** `total_clicks` per link; the column defaults to 0. */
  function Total(totals: map<nat, nat>, l: nat): nat {
    if l in totals then totals[l] else 0
  }

  function IncrementTotalClicksSince(totals: map<nat, nat>, log: seq<LogRow>, a: int): map<nat, nat> {
    map l | l in totals.Keys + (set r | r in log :: r.linkId) :: Total(totals, l) + Count(log, LinkSince(l, a))
  }

  lemma Incremented(totals: map<nat, nat>, log: seq<LogRow>, a: int, l: nat)
    ensures Total(IncrementTotalClicksSince(totals, log, a), l) == Total(totals, l) + Count(log, LinkSince(l, a))
  {
    CountPositive(log, LinkSince(l, a));
  }

  // ---- The direct meaning: what the day's figures of a link are

  function OnDay(k: StatKey): LogRow -> bool {
    (r: LogRow) => KeyOf(r) == k
  }

  function WithValue(col: Column, k: StatKey, x: string): LogRow -> bool {
    (r: LogRow) => KeyOf(r) == k && ValueIn(col, r) == Some(x)
  }

  function ClicksOn(log: seq<LogRow>, k: StatKey): nat {
    Count(log, OnDay(k))
  }

  function VisitorsOn(md5: Md5, log: seq<LogRow>, k: StatKey): set<string> {
    set r | r in log && KeyOf(r) == k :: md5(VisitorText(r))
  }

  function ValuesOn(log: seq<LogRow>, col: Column, k: StatKey): set<string> {
    set r | r in log && KeyOf(r) == k && ValueIn(col, r).Some? :: ValueIn(col, r).value
  }

  function HistOn(log: seq<LogRow>, col: Column, k: StatKey): map<string, nat> {
    map x | x in ValuesOn(log, col, k) :: Count(log, WithValue(col, k, x))
  }

  function DirectStat(md5: Md5, log: seq<LogRow>, k: StatKey): Stat {
    Stat(ClicksOn(log, k), |VisitorsOn(md5, log, k)|, HistOn(log, Country, k), HistOn(log, Referer, k))
  }

  // ---- For windows made of whole days the two agree

  predicate Within(k: StatKey, i: int, j: int) {
    i <= k.date < j
  }

  lemma WholeDays(r: LogRow, i: int, j: int)
    ensures InWindow(DayStart(i), DayStart(j), r) <==> Within(KeyOf(r), i, j)
  {
  }

  lemma AlignedKeys(log: seq<LogRow>, i: int, j: int, k: StatKey)
    ensures k in GroupKeys(log, DayStart(i), DayStart(j)) <==> Within(k, i, j) && ClicksOn(log, k) > 0
  {
    CountPositive(log, OnDay(k));
    forall r: LogRow {
      WholeDays(r, i, j);
    }
  }

  lemma AlignedGroup(md5: Md5, log: seq<LogRow>, i: int, j: int, k: StatKey)
    requires Within(k, i, j)
    ensures Count(log, InGroup(DayStart(i), DayStart(j), k)) == ClicksOn(log, k)
    ensures GroupVisitors(md5, log, DayStart(i), DayStart(j), k) == VisitorsOn(md5, log, k)
  {
    forall r: LogRow {
      WholeDays(r, i, j);
    }
    CountSame(log, InGroup(DayStart(i), DayStart(j), k), OnDay(k));
  }

  lemma AlignedHistRows(log: seq<LogRow>, i: int, j: int, col: Column, row: HistRow)
    ensures row in HistRows(log, DayStart(i), DayStart(j), col) <==>
      Within(row.key, i, j) && row.value in HistOn(log, col, row.key) && row.cnt == HistOn(log, col, row.key)[row.value]
  {
    var a, b, k, x := DayStart(i), DayStart(j), row.key, row.value;
    forall r: LogRow {
      WholeDays(r, i, j);
    }
    if Within(k, i, j) {
      CountSame(log, InValueGroup(a, b, col, k, x), WithValue(col, k, x));
      if x in ValuesOn(log, col, k) {
        var r :| r in log && KeyOf(r) == k && ValueIn(col, r) == Some(x);
        assert HistRow(k, x, Count(log, InValueGroup(a, b, col, k, x))) in HistRows(log, a, b, col);
      }
    }
  }
}
