/** Sums over sets, and the sums that count the same clicks in two ways. */
module Sums {
  import opened Options
  import opened Clicks
  import opened Queries

  ghost function SumOver<T(!new)>(s: set<T>, f: T -> nat): nat {
    if s == {} then 0
    else
      var x :| x in s;
      f(x) + SumOver(s - {x}, f)
  }

  /** The order of summation does not matter. */
  lemma {:induction false} SumTake<T(!new)>(s: set<T>, f: T -> nat, x: T)
    requires x in s
    ensures SumOver(s, f) == f(x) + SumOver(s - {x}, f)
    decreases |s|
  {
    var y :| y in s && SumOver(s, f) == f(y) + SumOver(s - {y}, f);
    if y != x {
      SumTake(s - {y}, f, x);
      SumTake(s - {x}, f, y);
      assert s - {y} - {x} == s - {x} - {y};
    }
  }

  lemma {:induction false} SumSame<T(!new)>(s: set<T>, f: T -> nat, g: T -> nat)
    requires forall x :: x in s ==> f(x) == g(x)
    ensures SumOver(s, f) == SumOver(s, g)
    decreases |s|
  {
    if s != {} {
      var x :| x in s;
      SumTake(s, f, x);
      SumTake(s, g, x);
      SumSame(s - {x}, f, g);
    }
  }

  lemma {:induction false} SumSplit<T(!new)>(s: set<T>, t: set<T>, f: T -> nat)
    requires s !! t
    ensures SumOver(s + t, f) == SumOver(s, f) + SumOver(t, f)
    decreases |s|
  {
    if s == {} {
      assert s + t == t;
    } else {
      var x :| x in s;
      SumTake(s, f, x);
      SumTake(s + t, f, x);
      SumSplit(s - {x}, t, f);
      assert s + t - {x} == (s - {x}) + t;
    }
  }

  lemma {:induction false} SumPositive<T(!new)>(s: set<T>, f: T -> nat)
    ensures SumOver(s, f) == 0 <==> forall x :: x in s ==> f(x) == 0
    decreases |s|
  {
    if s != {} {
      var x :| x in s;
      SumTake(s, f, x);
      SumPositive(s - {x}, f);
      assert forall y :: y in s <==> y == x || y in s - {x};
    }
  }

  // ---- A histogram adds up to the clicks that have a value

  function Entries(h: map<string, nat>): string -> nat {
    (x: string) => if x in h then h[x] else 0
  }

  function Counts(log: seq<LogRow>, col: Column, k: StatKey): string -> nat {
    (x: string) => Count(log, WithValue(col, k, x))
  }

  function WithValueIn(col: Column, k: StatKey, xs: set<string>): LogRow -> bool {
    (r: LogRow) => KeyOf(r) == k && ValueIn(col, r).Some? && ValueIn(col, r).value in xs
  }

  function HasValue(col: Column, k: StatKey): LogRow -> bool {
    (r: LogRow) => KeyOf(r) == k && ValueIn(col, r).Some?
  }

  lemma {:induction false} CountsAddUp(log: seq<LogRow>, col: Column, k: StatKey, xs: set<string>)
    ensures SumOver(xs, Counts(log, col, k)) == Count(log, WithValueIn(col, k, xs))
    decreases |xs|
  {
    if xs == {} {
      CountPositive(log, WithValueIn(col, k, xs));
    } else {
      var x :| x in xs;
      SumTake(xs, Counts(log, col, k), x);
      CountsAddUp(log, col, k, xs - {x});
      CountSplit(log, WithValueIn(col, k, xs), WithValue(col, k, x), WithValueIn(col, k, xs - {x}));
    }
  }

  /** The histogram of a link-day sums to its clicks with a value there, hence at most to its clicks. */
  lemma HistogramSum(log: seq<LogRow>, col: Column, k: StatKey)
    ensures var h := HistOn(log, col, k);
      && SumOver(h.Keys, Entries(h)) == Count(log, HasValue(col, k))
      && SumOver(h.Keys, Entries(h)) <= ClicksOn(log, k)
  {
    var h := HistOn(log, col, k);
    SumSame(h.Keys, Entries(h), Counts(log, col, k));
    CountsAddUp(log, col, k, h.Keys);
    CountSame(log, WithValueIn(col, k, h.Keys), HasValue(col, k));
    CountWithin(log, HasValue(col, k), OnDay(k));
  }

  // ---- Distinct visitors

  function PairsOn(log: seq<LogRow>, k: StatKey): set<(Option<string>, Option<string>)> {
    set r | r in log && KeyOf(r) == k :: (r.ip, r.userAgent)
  }

  lemma {:induction false} PairsBelowClicks(log: seq<LogRow>, k: StatKey)
    ensures |PairsOn(log, k)| <= ClicksOn(log, k)
  {
    if log != [] {
      var n := |log| - 1;
      PairsBelowClicks(log[..n], k);
      assert log == log[..n] + [log[n]];
      assert PairsOn(log, k) ==
        PairsOn(log[..n], k) + if KeyOf(log[n]) == k then {(log[n].ip, log[n].userAgent)} else {};
    }
  }

  function Hashes(md5: Md5, pairs: set<(Option<string>, Option<string>)>): set<string> {
    set p | p in pairs :: md5(OrEmpty(p.0) + OrEmpty(p.1))
  }

  lemma {:induction false} HashesBelowPairs(md5: Md5, pairs: set<(Option<string>, Option<string>)>)
    ensures |Hashes(md5, pairs)| <= |pairs|
    decreases |pairs|
  {
    if pairs != {} {
      var p :| p in pairs;
      HashesBelowPairs(md5, pairs - {p});
      assert Hashes(md5, pairs) == Hashes(md5, pairs - {p}) + {md5(OrEmpty(p.0) + OrEmpty(p.1))};
    }
  }

  /** A link-day with clicks has between one unique visitor and one per distinct (address, agent) pair. */
  lemma VisitorBounds(md5: Md5, log: seq<LogRow>, k: StatKey)
    requires ClicksOn(log, k) > 0
    ensures 1 <= |VisitorsOn(md5, log, k)| <= |PairsOn(log, k)| <= ClicksOn(log, k)
  {
    CountPositive(log, OnDay(k));
    var r :| r in log && KeyOf(r) == k;
    assert md5(VisitorText(r)) in VisitorsOn(md5, log, k);
    forall h ensures h in VisitorsOn(md5, log, k) <==> h in Hashes(md5, PairsOn(log, k)) {
      if h in VisitorsOn(md5, log, k) {
        var q :| q in log && KeyOf(q) == k && md5(VisitorText(q)) == h;
        assert (q.ip, q.userAgent) in PairsOn(log, k);
      }
      if h in Hashes(md5, PairsOn(log, k)) {
        var p :| p in PairsOn(log, k) && md5(OrEmpty(p.0) + OrEmpty(p.1)) == h;
        var q :| q in log && KeyOf(q) == k && (q.ip, q.userAgent) == p;
        assert md5(VisitorText(q)) == h;
      }
    }
    assert VisitorsOn(md5, log, k) == Hashes(md5, PairsOn(log, k));
    HashesBelowPairs(md5, PairsOn(log, k));
    PairsBelowClicks(log, k);
  }

  /** The log that a link-day was rolled up from; each may have its own. */
  type RolledFrom = StatKey -> seq<LogRow>

  function VisitorCounts(md5: Md5, from: RolledFrom): StatKey -> nat {
    (k: StatKey) => |VisitorsOn(md5, from(k), k)|
  }

  /** The distinct visitors of several link-days together, each with its rolled-up clicks. */
  function VisitorsOver(md5: Md5, from: RolledFrom, ks: set<StatKey>): set<string> {
    set k, r | k in ks && r in from(k) && KeyOf(r) == k :: md5(VisitorText(r))
  }

  lemma UnionBound(a: set<string>, b: set<string>)
    ensures |a + b| <= |a| + |b|
  {
    assert a + b == a + (b - a) && a * (b - a) == {};
  }

  /** Adding up daily uniques never undercounts the distinct visitors of the whole period. */
  lemma {:induction false} DailyUniquesOvercount(md5: Md5, from: RolledFrom, ks: set<StatKey>)
    ensures SumOver(ks, VisitorCounts(md5, from)) >= |VisitorsOver(md5, from, ks)|
    decreases |ks|
  {
    if ks != {} {
      var k :| k in ks;
      SumTake(ks, VisitorCounts(md5, from), k);
      DailyUniquesOvercount(md5, from, ks - {k});
      var rest := VisitorsOver(md5, from, ks - {k});
      assert VisitorsOver(md5, from, ks) == VisitorsOn(md5, from(k), k) + rest;
      UnionBound(VisitorsOn(md5, from(k), k), rest);
    }
  }

  // ---- GetLinkStatsSummary

  function LinkDays(daily: map<StatKey, Stat>, l: nat): set<StatKey> {
    set k | k in daily && k.linkId == l
  }

  function DayClicks(daily: map<StatKey, Stat>): StatKey -> nat {
    (k: StatKey) => if k in daily then daily[k].clicks else 0
  }

  function DayVisitors(daily: map<StatKey, Stat>): StatKey -> nat {
    (k: StatKey) => if k in daily then daily[k].visitors else 0
  }

  /** SUM(clicks) over all days of the link. */
  ghost function SumClicks(daily: map<StatKey, Stat>, l: nat): nat {
    SumOver(LinkDays(daily, l), DayClicks(daily))
  }

  ghost function SumVisitors(daily: map<StatKey, Stat>, l: nat): nat {
    SumOver(LinkDays(daily, l), DayVisitors(daily))
  }

  /** Both sums run over exactly the link's rows, each taking its own column. */
  lemma SummaryMeaning(daily: map<StatKey, Stat>, l: nat)
    ensures var rows := set k | k in daily && k.linkId == l;
      && SumClicks(daily, l) == SumOver(rows, (k: StatKey) => if k in daily then daily[k].clicks else 0)
      && SumVisitors(daily, l) == SumOver(rows, (k: StatKey) => if k in daily then daily[k].visitors else 0)
  {
    var rows := set k | k in daily && k.linkId == l;
    SumSame(rows, DayClicks(daily), (k: StatKey) => if k in daily then daily[k].clicks else 0);
    SumSame(rows, DayVisitors(daily), (k: StatKey) => if k in daily then daily[k].visitors else 0);
  }

  /**
   * The summed uniques of a link are at least its distinct visitors over all rolled-up clicks, each row
   * being right about the log it was rolled up from, however much was logged since.
   */
  lemma SummaryOvercountsVisitors(md5: Md5, daily: map<StatKey, Stat>, from: RolledFrom, l: nat)
    requires forall k :: k in daily && k.linkId == l ==> daily[k].visitors == |VisitorsOn(md5, from(k), k)|
    ensures SumVisitors(daily, l) >= |VisitorsOver(md5, from, LinkDays(daily, l))|
  {
    SumSame(LinkDays(daily, l), DayVisitors(daily), VisitorCounts(md5, from));
    DailyUniquesOvercount(md5, from, LinkDays(daily, l));
  }
}
