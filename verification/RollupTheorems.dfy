/** What the rollup means for whole-day windows, pass after pass. */
module RollupTheorems {
  import opened Options
  import opened Clicks
  import opened Queries
  import opened Rollup

  // ---- One pass, link-day by link-day

  /** A column after a pass: the histogram of the log if it has any value, else what was there. */
  function ColumnAfter(before: map<string, nat>, log: seq<LogRow>, col: Column, k: StatKey): map<string, nat> {
    if HistOn(log, col, k) == map[] then before else HistOn(log, col, k)
  }

  const EMPTY := Stat(0, 0, map[], map[])

  /** The row of link-day `k` after a pass over days [i, j) whose statements saw s1, s2 and s3. */
  function CellAfter(
      md5: Md5, before: Option<Stat>, s1: seq<LogRow>, s2: seq<LogRow>, s3: seq<LogRow>, i: int, j: int, k: StatKey)
    : Option<Stat>
  {
    if !Within(k, i, j) || (before.None? && ClicksOn(s1, k) == 0) then before
    else
      var o := if before.Some? then before.value else EMPTY;
      var counted := if ClicksOn(s1, k) == 0 then o
                     else o.(clicks := ClicksOn(s1, k), visitors := |VisitorsOn(md5, s1, k)|);
      Some(counted.(countries := ColumnAfter(o.countries, s2, Country, k),
                    referers := ColumnAfter(o.referers, s3, Referer, k)))
  }

  lemma HistValueAligned(log: seq<LogRow>, i: int, j: int, col: Column, k: StatKey, x: string)
    ensures x in HistValues(log, DayStart(i), DayStart(j), col, k) <==> Within(k, i, j) && x in HistOn(log, col, k)
  {
    var a, b := DayStart(i), DayStart(j);
    if x in HistValues(log, a, b, col, k) {
      var row :| row in HistRows(log, a, b, col) && row.key == k && row.value == x;
      AlignedHistRows(log, i, j, col, row);
    }
    if Within(k, i, j) && x in HistOn(log, col, k) {
      var row := HistRow(k, x, HistOn(log, col, k)[x]);
      AlignedHistRows(log, i, j, col, row);
      assert row in HistRows(log, a, b, col);
    }
  }

  lemma HistogramAt(log: seq<LogRow>, i: int, j: int, col: Column, k: StatKey)
    ensures var h := Histograms(log, DayStart(i), DayStart(j), col);
      && (k in h <==> Within(k, i, j) && HistOn(log, col, k) != map[])
      && (k in h ==> h[k] == HistOn(log, col, k))
  {
    var a, b := DayStart(i), DayStart(j);
    var h, direct := Histograms(log, a, b, col), HistOn(log, col, k);
    if k in h {
      var row :| row in HistRows(log, a, b, col) && row.key == k;
      AlignedHistRows(log, i, j, col, row);
      forall x ensures x in HistValues(log, a, b, col, k) <==> x in direct {
        HistValueAligned(log, i, j, col, k, x);
      }
      forall x | x in h[k] ensures h[k][x] == direct[x] {
        HistValueAligned(log, i, j, col, k, x);
        var row' :| row' in HistRows(log, a, b, col) && row'.key == k && row'.value == x;
        CountOfHistRow(log, a, b, col, row');
        AlignedHistRows(log, i, j, col, row');
      }
    }
    if Within(k, i, j) && direct != map[] {
      var x :| x in direct;
      HistValueAligned(log, i, j, col, k, x);
      var row :| row in HistRows(log, a, b, col) && row.key == k && row.value == x;
      assert k in HistKeys(log, a, b, col);
    }
  }

  lemma UpsertAt(md5: Md5, daily: map<StatKey, Stat>, log: seq<LogRow>, i: int, j: int, k: StatKey)
    ensures At(UpsertDailyClicks(md5, daily, log, DayStart(i), DayStart(j)), k) ==
      if Within(k, i, j) && ClicksOn(log, k) > 0 then
        Some((if k in daily then daily[k] else EMPTY)
             .(clicks := ClicksOn(log, k), visitors := |VisitorsOn(md5, log, k)|))
      else At(daily, k)
  {
    AlignedKeys(log, i, j, k);
    if Within(k, i, j) {
      AlignedGroup(md5, log, i, j, k);
    }
  }

  /** The four statements, the loops and the batches together do exactly this to each link-day. */
  lemma RolledUpAt(
      md5: Md5, daily: map<StatKey, Stat>, s1: seq<LogRow>, s2: seq<LogRow>, s3: seq<LogRow>,
      i: int, j: int, k: StatKey)
    ensures At(RolledUp(md5, daily, s1, s2, s3, DayStart(i), DayStart(j)), k)
      == CellAfter(md5, At(daily, k), s1, s2, s3, i, j, k)
  {
    UpsertAt(md5, daily, s1, i, j, k);
    HistogramAt(s2, i, j, Country, k);
    HistogramAt(s3, i, j, Referer, k);
  }

  lemma SameTable(d: map<StatKey, Stat>, e: map<StatKey, Stat>)
    requires forall k :: At(d, k) == At(e, k)
    ensures d == e
  {
    forall k ensures k in d <==> k in e {
      assert At(d, k) == At(e, k);
    }
    forall k | k in d ensures d[k] == e[k] {
      assert At(d, k) == At(e, k);
    }
  }

  // ---- Every history

  /** What every history keeps: a row stands for logged clicks, and a filled column for logged values. */
  ghost predicate Supported(daily: map<StatKey, Stat>, log: seq<LogRow>) {
    forall k :: k in daily ==>
      && ClicksOn(log, k) > 0
      && (daily[k].countries != map[] ==> HistOn(log, Country, k) != map[])
      && (daily[k].referers != map[] ==> HistOn(log, Referer, k) != map[])
  }

  lemma HistPrefix(a: seq<LogRow>, b: seq<LogRow>, col: Column, k: StatKey)
    requires a <= b && HistOn(a, col, k) != map[]
    ensures HistOn(b, col, k) != map[]
  {
    var x :| x in HistOn(a, col, k);
    var r :| r in a && KeyOf(r) == k && ValueIn(col, r) == Some(x);
    assert r in b;
    assert x in HistOn(b, col, k);
  }

  lemma SupportGrows(daily: map<StatKey, Stat>, log: seq<LogRow>, log': seq<LogRow>)
    requires Supported(daily, log) && log <= log'
    ensures Supported(daily, log')
  {
    forall k | k in daily
      ensures ClicksOn(log', k) > 0
      ensures daily[k].countries != map[] ==> HistOn(log', Country, k) != map[]
      ensures daily[k].referers != map[] ==> HistOn(log', Referer, k) != map[]
    {
      CountPrefix(log, log', OnDay(k));
      if daily[k].countries != map[] {
        HistPrefix(log, log', Country, k);
      }
      if daily[k].referers != map[] {
        HistPrefix(log, log', Referer, k);
      }
    }
  }

  /** Where a filled column is supported by the log, the cell after a pass is the figures of the three logs. */
  lemma CellBracketed(
      md5: Md5, before: Option<Stat>, s1: seq<LogRow>, s2: seq<LogRow>, s3: seq<LogRow>, i: int, j: int, k: StatKey)
    requires before.Some? ==>
      && ClicksOn(s1, k) > 0
      && (before.value.countries != map[] ==> HistOn(s2, Country, k) != map[])
      && (before.value.referers != map[] ==> HistOn(s3, Referer, k) != map[])
    ensures CellAfter(md5, before, s1, s2, s3, i, j, k) ==
      if Within(k, i, j) && ClicksOn(s1, k) > 0 then
        Some(Stat(ClicksOn(s1, k), |VisitorsOn(md5, s1, k)|, HistOn(s2, Country, k), HistOn(s3, Referer, k)))
      else before
  {
  }

  lemma CellSupported(daily: map<StatKey, Stat>, log: seq<LogRow>, log': seq<LogRow>, k: StatKey)
    requires Supported(daily, log) && log <= log' && k in daily
    ensures ClicksOn(log', k) > 0
    ensures daily[k].countries != map[] ==> HistOn(log', Country, k) != map[]
    ensures daily[k].referers != map[] ==> HistOn(log', Referer, k) != map[]
  {
    SupportGrows(daily, log, log');
  }

  /**
   * Bracketing: each statement sees the log as far as it was committed by then. Clicks and visitors are
   * those of s1, countries those of s2, referers those of s3; link-days outside the window, or without a
   * click in s1, have the row they had before. The empty-histogram case leaves an old column in place,
   * which is right because the log only grows.
   */
  lemma Bracketing(
      md5: Md5, daily: map<StatKey, Stat>, log: seq<LogRow>,
      s1: seq<LogRow>, s2: seq<LogRow>, s3: seq<LogRow>, i: int, j: int, k: StatKey)
    requires Supported(daily, log) && log <= s1 <= s2 <= s3
    ensures At(RolledUp(md5, daily, s1, s2, s3, DayStart(i), DayStart(j)), k) ==
      if Within(k, i, j) && ClicksOn(s1, k) > 0 then
        Some(Stat(ClicksOn(s1, k), |VisitorsOn(md5, s1, k)|, HistOn(s2, Country, k), HistOn(s3, Referer, k)))
      else At(daily, k)
  {
    RolledUpAt(md5, daily, s1, s2, s3, i, j, k);
    if k in daily {
      assert log <= s2 && log <= s3;
      CellSupported(daily, log, s1, k);
      CellSupported(daily, log, s2, k);
      CellSupported(daily, log, s3, k);
    }
    CellBracketed(md5, At(daily, k), s1, s2, s3, i, j, k);
  }

  /** Refinement: with no commit between the statements the window's link-days hold exactly the direct figures. */
  lemma RollupIsDirect(md5: Md5, daily: map<StatKey, Stat>, log: seq<LogRow>, i: int, j: int, k: StatKey)
    requires Supported(daily, log)
    ensures At(RolledUp(md5, daily, log, log, log, DayStart(i), DayStart(j)), k) ==
      if Within(k, i, j) && ClicksOn(log, k) > 0 then Some(DirectStat(md5, log, k)) else At(daily, k)
  {
    Bracketing(md5, daily, log, log, log, log, i, j, k);
  }

  lemma RollupKeepsSupport(
      md5: Md5, daily: map<StatKey, Stat>, log: seq<LogRow>,
      s1: seq<LogRow>, s2: seq<LogRow>, s3: seq<LogRow>, log': seq<LogRow>, i: int, j: int)
    requires Supported(daily, log) && log <= s1 <= s2 <= s3 <= log'
    ensures Supported(RolledUp(md5, daily, s1, s2, s3, DayStart(i), DayStart(j)), log')
  {
    var d := RolledUp(md5, daily, s1, s2, s3, DayStart(i), DayStart(j));
    SupportGrows(daily, log, log');
    assert s1 <= log' && s2 <= log';
    forall k | k in d
      ensures ClicksOn(log', k) > 0
      ensures d[k].countries != map[] ==> HistOn(log', Country, k) != map[]
      ensures d[k].referers != map[] ==> HistOn(log', Referer, k) != map[]
    {
      Bracketing(md5, daily, log, s1, s2, s3, i, j, k);
      CountPrefix(s1, log', OnDay(k));
      assert At(d, k) == Some(d[k]);
      if Within(k, i, j) && ClicksOn(s1, k) > 0 {
        if d[k].countries != map[] {
          HistPrefix(s2, log', Country, k);
        }
        if d[k].referers != map[] {
          HistPrefix(s3, log', Referer, k);
        }
      } else {
        assert k in daily;
      }
    }
  }

  /** Something that happens to the tables: a batch is committed, or an aggregation over days [i, j) runs. */
  datatype Happening =
    | Insert(rows: seq<LogRow>)
    | Aggregation(i: int, j: int, requestID: string, now: int, outcomes: Outcomes)

  function Happens(md5: Md5, t: Tables, marks: map<string, int>, e: Happening): Effect {
    match e
    case Insert(rows) => Effect(t.(log := t.log + rows), marks, false)
    case Aggregation(i, j, id, now, o) => AggregateEffect(md5, t, marks, now, DayStart(i), DayStart(j), id, o)
  }

  function History(md5: Md5, t: Tables, marks: map<string, int>, es: seq<Happening>): Effect
    decreases |es|
  {
    if es == [] then Effect(t, marks, false)
    else
      var e := Happens(md5, t, marks, es[0]);
      History(md5, e.tables, e.marks, es[1..])
  }

  lemma SeenGrows(o: Outcomes, log: seq<LogRow>)
    ensures log <= o.Seen(log, 1) <= o.Seen(log, 2) <= o.Seen(log, 3) <= o.Seen(log, 4)
    ensures forall n :: log <= o.Seen(log, n)
  {
  }

  lemma CommitsOrNot(
      md5: Md5, t: Tables, marks: map<string, int>, now: int, a: int, b: int, id: string, o: Outcomes)
    ensures var t' := AggregateEffect(md5, t, marks, now, a, b, id, o).tables;
      t' == AfterCommit(md5, t, o, a, b) || (exists n :: t' == t.(log := o.Seen(t.log, n)))
  {
    var e := AggregateEffect(md5, t, marks, now, a, b, id, o);
    if e.tables != AfterCommit(md5, t, o, a, b) {
      var n := if e.tables == t then 0 else if 1 <= o.failAt <= 4 then o.failAt else 4;
      assert e.tables == t.(log := o.Seen(t.log, n));
    }
  }

  lemma HappensKeepsSupport(md5: Md5, t: Tables, marks: map<string, int>, e: Happening)
    requires Supported(t.daily, t.log)
    ensures var t' := Happens(md5, t, marks, e).tables; Supported(t'.daily, t'.log) && t.log <= t'.log
  {
    var t' := Happens(md5, t, marks, e).tables;
    match e {
      case Insert(rows) => SupportGrows(t.daily, t.log, t'.log);
      case Aggregation(i, j, id, now, o) =>
        SeenGrows(o, t.log);
        CommitsOrNot(md5, t, marks, now, DayStart(i), DayStart(j), id, o);
        if t' == AfterCommit(md5, t, o, DayStart(i), DayStart(j)) {
          RollupKeepsSupport(md5, t.daily, t.log, o.Seen(t.log, 1), o.Seen(t.log, 2), o.Seen(t.log, 3),
                             o.Seen(t.log, 4), i, j);
        } else {
          SupportGrows(t.daily, t.log, t'.log);
        }
    }
  }

  /** Whole histories, with lost replies, failed statements and rows arriving between statements. */
  lemma {:induction false} EveryHistoryKeepsSupport(md5: Md5, t: Tables, marks: map<string, int>, es: seq<Happening>)
    requires Supported(t.daily, t.log)
    ensures var t' := History(md5, t, marks, es).tables; Supported(t'.daily, t'.log) && t.log <= t'.log
    decreases |es|
  {
    if es != [] {
      var e := Happens(md5, t, marks, es[0]);
      HappensKeepsSupport(md5, t, marks, es[0]);
      EveryHistoryKeepsSupport(md5, e.tables, e.marks, es[1..]);
    }
  }

  lemma CommitBrackets(md5: Md5, t: Tables, i: int, j: int, o: Outcomes, k: StatKey, l: nat)
    requires Supported(t.daily, t.log)
    ensures var t' := AfterCommit(md5, t, o, DayStart(i), DayStart(j));
      var s1, s2, s3, s4 := o.Seen(t.log, 1), o.Seen(t.log, 2), o.Seen(t.log, 3), o.Seen(t.log, 4);
      && t.log <= s1 <= s2 <= s3 <= s4 == t'.log
      && At(t'.daily, k) == (if Within(k, i, j) && ClicksOn(s1, k) > 0 then
           Some(Stat(ClicksOn(s1, k), |VisitorsOn(md5, s1, k)|, HistOn(s2, Country, k), HistOn(s3, Referer, k)))
           else At(t.daily, k))
      && Total(t'.totals, l) == Total(t.totals, l) + Count(s4, LinkSince(l, DayStart(i)))
  {
    SeenGrows(o, t.log);
    Bracketing(md5, t.daily, t.log, o.Seen(t.log, 1), o.Seen(t.log, 2), o.Seen(t.log, 3), i, j, k);
    Incremented(t.totals, o.Seen(t.log, 4), DayStart(i), l);
  }

  // ---- Where the figures of a row come from

  ghost predicate FromPrefixes(
      md5: Md5, row: Stat, log: seq<LogRow>, s1: seq<LogRow>, s2: seq<LogRow>, s3: seq<LogRow>, k: StatKey)
  {
    && s1 <= s2 <= s3 <= log && ClicksOn(s1, k) > 0
    && row == Stat(ClicksOn(s1, k), |VisitorsOn(md5, s1, k)|, HistOn(s2, Country, k), HistOn(s3, Referer, k))
  }

  /** Every row is that of some pass: its figures are those of three prefixes of the log. */
  ghost predicate Traced(md5: Md5, daily: map<StatKey, Stat>, log: seq<LogRow>) {
    forall k :: k in daily ==> exists s1, s2, s3 :: FromPrefixes(md5, daily[k], log, s1, s2, s3, k)
  }

  lemma TracedGrows(md5: Md5, daily: map<StatKey, Stat>, log: seq<LogRow>, log': seq<LogRow>)
    requires Traced(md5, daily, log) && log <= log'
    ensures Traced(md5, daily, log')
  {
    forall k | k in daily ensures exists s1, s2, s3 :: FromPrefixes(md5, daily[k], log', s1, s2, s3, k) {
      var s1, s2, s3 :| FromPrefixes(md5, daily[k], log, s1, s2, s3, k);
      assert s3 <= log';
      assert FromPrefixes(md5, daily[k], log', s1, s2, s3, k);
    }
  }

  lemma CommitKeepsTraced(md5: Md5, t: Tables, o: Outcomes, i: int, j: int)
    requires Supported(t.daily, t.log) && Traced(md5, t.daily, t.log)
    ensures var t' := AfterCommit(md5, t, o, DayStart(i), DayStart(j)); Traced(md5, t'.daily, t'.log)
  {
    var t' := AfterCommit(md5, t, o, DayStart(i), DayStart(j));
    SeenGrows(o, t.log);
    TracedGrows(md5, t.daily, t.log, t'.log);
    forall k | k in t'.daily ensures exists s1, s2, s3 :: FromPrefixes(md5, t'.daily[k], t'.log, s1, s2, s3, k) {
      CommitBrackets(md5, t, i, j, o, k, 0);
      assert At(t'.daily, k) == Some(t'.daily[k]);
      if Within(k, i, j) && ClicksOn(o.Seen(t.log, 1), k) > 0 {
        assert FromPrefixes(md5, t'.daily[k], t'.log, o.Seen(t.log, 1), o.Seen(t.log, 2), o.Seen(t.log, 3), k);
      } else {
        assert k in t.daily && t'.daily[k] == t.daily[k];
      }
    }
  }

  lemma HappensKeepsTraced(md5: Md5, t: Tables, marks: map<string, int>, e: Happening)
    requires Supported(t.daily, t.log) && Traced(md5, t.daily, t.log)
    ensures var t' := Happens(md5, t, marks, e).tables; Traced(md5, t'.daily, t'.log)
  {
    match e {
      case Insert(rows) => TracedGrows(md5, t.daily, t.log, t.log + rows);
      case Aggregation(i, j, id, now, o) =>
        var t' := Happens(md5, t, marks, e).tables;
        CommitsOrNot(md5, t, marks, now, DayStart(i), DayStart(j), id, o);
        if t' == AfterCommit(md5, t, o, DayStart(i), DayStart(j)) {
          CommitKeepsTraced(md5, t, o, i, j);
        } else {
          SeenGrows(o, t.log);
          TracedGrows(md5, t.daily, t.log, t'.log);
        }
    }
  }

  /** After every history, the figures of every row are those of three prefixes s1 <= s2 <= s3 of the log. */
  lemma {:induction false} EveryRowIsTraced(md5: Md5, t: Tables, marks: map<string, int>, es: seq<Happening>)
    requires Supported(t.daily, t.log) && Traced(md5, t.daily, t.log)
    ensures var t' := History(md5, t, marks, es).tables; Traced(md5, t'.daily, t'.log)
    decreases |es|
  {
    if es != [] {
      var e := Happens(md5, t, marks, es[0]);
      HappensKeepsSupport(md5, t, marks, es[0]);
      HappensKeepsTraced(md5, t, marks, es[0]);
      EveryRowIsTraced(md5, e.tables, e.marks, es[1..]);
    }
  }

  /** The transaction goes through, whether or not its caller is told. */
  predicate Applies(o: Outcomes) {
    o.begin && !(1 <= o.failAt <= 4) && !o.commit.Refused?
  }

  predicate Skipped(marks: map<string, int>, id: string, now: int, o: Outcomes) {
    !o.existsFails && Marked(marks, RedisKeys.ProcessedKey(id), now)
  }

  lemma AppliesCommits(
      md5: Md5, t: Tables, marks: map<string, int>, now: int, a: int, b: int, id: string, o: Outcomes)
    requires Applies(o) && !Skipped(marks, id, now, o)
    ensures AggregateEffect(md5, t, marks, now, a, b, id, o).tables == AfterCommit(md5, t, o, a, b)
  {
  }

  /**
   * Bracketing for a whole aggregation, after any history from the empty tables: with s1, ..., s4 the
   * logs the four statements see, each a prefix of the next, all between begin and commit, a link-day's
   * row and a link's total become exactly this.
   */
  lemma AggregateBrackets(
      md5: Md5, es: seq<Happening>, i: int, j: int, id: string, now: int, o: Outcomes, k: StatKey, l: nat)
    requires var h := History(md5, Tables([], map[], map[]), map[], es); Applies(o) && !Skipped(h.marks, id, now, o)
    ensures var h := History(md5, Tables([], map[], map[]), map[], es);
      var t, t' := h.tables, AggregateEffect(md5, h.tables, h.marks, now, DayStart(i), DayStart(j), id, o).tables;
      var s1, s2, s3, s4 := o.Seen(t.log, 1), o.Seen(t.log, 2), o.Seen(t.log, 3), o.Seen(t.log, 4);
      && t.log <= s1 <= s2 <= s3 <= s4 == t'.log
      && At(t'.daily, k) == (if Within(k, i, j) && ClicksOn(s1, k) > 0 then
           Some(Stat(ClicksOn(s1, k), |VisitorsOn(md5, s1, k)|, HistOn(s2, Country, k), HistOn(s3, Referer, k)))
           else At(t.daily, k))
      && Total(t'.totals, l) == Total(t.totals, l) + Count(s4, LinkSince(l, DayStart(i)))
  {
    var h := History(md5, Tables([], map[], map[]), map[], es);
    EveryHistoryKeepsSupport(md5, Tables([], map[], map[]), map[], es);
    AppliesCommits(md5, h.tables, h.marks, now, DayStart(i), DayStart(j), id, o);
    CommitBrackets(md5, h.tables, i, j, o, k, l);
  }

  predicate Quiet(o: Outcomes) {
    o.arrivals == ([], [], [], [])
  }

  lemma QuietSeen(o: Outcomes, log: seq<LogRow>)
    requires Quiet(o)
    ensures forall n :: o.Seen(log, n) == log
  {
    assert log + [] == log;
  }

  /**
   * The whole-run invariant: after any history from the empty tables, an aggregation that is not skipped,
   * commits, and sees no commit between its statements leaves every link-day of its window exactly as the
   * log has it and every other row alone.
   */
  lemma AggregateIsExact(
      md5: Md5, es: seq<Happening>, i: int, j: int, id: string, now: int, o: Outcomes, k: StatKey)
    requires Quiet(o)
    requires var h := History(md5, Tables([], map[], map[]), map[], es); Applies(o) && !Skipped(h.marks, id, now, o)
    ensures var h := History(md5, Tables([], map[], map[]), map[], es);
      var t' := AggregateEffect(md5, h.tables, h.marks, now, DayStart(i), DayStart(j), id, o).tables;
      && t'.log == h.tables.log
      && At(t'.daily, k) ==
           if Within(k, i, j) && ClicksOn(t'.log, k) > 0 then Some(DirectStat(md5, t'.log, k))
           else At(h.tables.daily, k)
  {
    var h := History(md5, Tables([], map[], map[]), map[], es);
    QuietSeen(o, h.tables.log);
    AggregateBrackets(md5, es, i, j, id, now, o, k, 0);
  }

  // ---- Idempotent against additive

  /** The history consists of committed aggregations of the days [i, j), with no insert in between. */
  predicate Passes(md5: Md5, t: Tables, marks: map<string, int>, i: int, j: int, es: seq<Happening>)
    decreases |es|
  {
    es == [] ||
    (&& es[0].Aggregation? && es[0].i == i && es[0].j == j
     && Quiet(es[0].outcomes) && Applies(es[0].outcomes)
     && !Skipped(marks, es[0].requestID, es[0].now, es[0].outcomes)
     && var e := Happens(md5, t, marks, es[0]);
        Passes(md5, e.tables, e.marks, i, j, es[1..]))
  }

  lemma RollupIdempotent(md5: Md5, daily: map<StatKey, Stat>, log: seq<LogRow>, i: int, j: int)
    ensures var once := RolledUp(md5, daily, log, log, log, DayStart(i), DayStart(j));
      RolledUp(md5, once, log, log, log, DayStart(i), DayStart(j)) == once
  {
    var once := RolledUp(md5, daily, log, log, log, DayStart(i), DayStart(j));
    var twice := RolledUp(md5, once, log, log, log, DayStart(i), DayStart(j));
    forall k ensures At(twice, k) == At(once, k) {
      RolledUpAt(md5, daily, log, log, log, i, j, k);
      RolledUpAt(md5, once, log, log, log, i, j, k);
    }
    SameTable(twice, once);
  }

  /** What n >= 1 passes over the days [i, j) make of the tables, as far as link `l` is concerned. */
  ghost predicate Passed(md5: Md5, t: Tables, u: Tables, i: int, j: int, n: nat, l: nat) {
    && u.log == t.log
    && u.daily == RolledUp(md5, t.daily, t.log, t.log, t.log, DayStart(i), DayStart(j))
    && Total(u.totals, l) == Total(t.totals, l) + n * Count(t.log, LinkSince(l, DayStart(i)))
  }

  lemma OnePass(
      md5: Md5, t: Tables, marks: map<string, int>, i: int, j: int, id: string, now: int, o: Outcomes, l: nat)
    requires Quiet(o) && Applies(o) && !Skipped(marks, id, now, o)
    ensures Passed(md5, t, AggregateEffect(md5, t, marks, now, DayStart(i), DayStart(j), id, o).tables, i, j, 1, l)
  {
    QuietSeen(o, t.log);
    AppliesCommits(md5, t, marks, now, DayStart(i), DayStart(j), id, o);
    Incremented(t.totals, t.log, DayStart(i), l);
  }

  lemma PassedOnceMore(md5: Md5, t: Tables, u: Tables, v: Tables, i: int, j: int, n: nat, l: nat)
    requires Passed(md5, t, u, i, j, 1, l) && Passed(md5, u, v, i, j, n, l)
    ensures Passed(md5, t, v, i, j, n + 1, l)
  {
    var c := Count(t.log, LinkSince(l, DayStart(i)));
    RollupIdempotent(md5, t.daily, t.log, i, j);
    assert (n + 1) * c == c + n * c;
  }

  /** Repeating a pass changes `daily_stats` no further, while `total_clicks` goes up by the same amount each time. */
  lemma {:induction false} RepeatedPasses(
      md5: Md5, t: Tables, marks: map<string, int>, i: int, j: int, es: seq<Happening>, l: nat)
    requires es != [] && Passes(md5, t, marks, i, j, es)
    ensures Passed(md5, t, History(md5, t, marks, es).tables, i, j, |es|, l)
    decreases |es|
  {
    var e, first := Happens(md5, t, marks, es[0]), es[0];
    OnePass(md5, t, marks, i, j, first.requestID, first.now, first.outcomes, l);
    var h := History(md5, e.tables, e.marks, es[1..]);
    assert History(md5, t, marks, es) == h;
    if |es| > 1 {
      RepeatedPasses(md5, e.tables, e.marks, i, j, es[1..], l);
      PassedOnceMore(md5, t, e.tables, h.tables, i, j, |es| - 1, l);
    }
  }

  /** While the mark of its request lives, a rerun changes nothing. */
  lemma MarkedRerunChangesNothing(
      md5: Md5, t: Tables, marks: map<string, int>, now: int, a: int, b: int, id: string, o: Outcomes,
      later: int, o': Outcomes)
    requires var e := AggregateEffect(md5, t, marks, now, a, b, id, o);
      !e.failed && !o.existsFails && !o.mark.Refused? && !Marked(marks, RedisKeys.ProcessedKey(id), now)
    requires now <= later < now + PROCESSED_KEY_TTL && !o'.existsFails
    ensures var e := AggregateEffect(md5, t, marks, now, a, b, id, o);
      AggregateEffect(md5, e.tables, e.marks, later, a, b, id, o') == e
  {
  }

  /** A run that fails for sure changes no table and sets no mark. */
  lemma FailedRunChangesNothing(
      md5: Md5, t: Tables, marks: map<string, int>, now: int, a: int, b: int, id: string, o: Outcomes)
    requires AggregateEffect(md5, t, marks, now, a, b, id, o).failed && !o.commit.ReplyLost?
    ensures var e := AggregateEffect(md5, t, marks, now, a, b, id, o);
      e.tables.daily == t.daily && e.tables.totals == t.totals && e.marks == marks && t.log <= e.tables.log
  {
    SeenGrows(o, t.log);
  }

  predicate Marks(o: Outcomes) {
    o.commit.Fine? && !o.mark.Refused?
  }

  /**
   * What a run reports and leaves in general: it fails exactly if it is not skipped and its transaction
   * is not known to be committed; what others commit while it is under way is in the log, in order; and
   * rows, totals and marks move only with its own commit.
   */
  lemma AggregateReports(
      md5: Md5, t: Tables, marks: map<string, int>, now: int, a: int, b: int, id: string, o: Outcomes)
    ensures var e := AggregateEffect(md5, t, marks, now, a, b, id, o);
      var (r1, r2, r3, r4) := o.arrivals;
      var reached := if Skipped(marks, id, now, o) || !o.begin then 0 else if 1 <= o.failAt <= 4 then o.failAt else 4;
      && (e.failed <==> !Skipped(marks, id, now, o) && !(Applies(o) && o.commit.Fine?))
      && e.tables.log == t.log + (if reached >= 1 then r1 else []) + (if reached >= 2 then r2 else [])
           + (if reached >= 3 then r3 else []) + (if reached >= 4 then r4 else [])
      && (Skipped(marks, id, now, o) || !Applies(o) ==>
            e.tables.daily == t.daily && e.tables.totals == t.totals && e.marks == marks)
  {
  }

  /** A mark lives for seven days from its SET, and no other mark is touched. */
  lemma MarkLives(
      md5: Md5, t: Tables, marks: map<string, int>, now: int, a: int, b: int, id: string, o: Outcomes,
      key: string, asked: int)
    requires Applies(o) && !Skipped(marks, id, now, o) && o.commit.Fine? && !o.mark.Refused?
    ensures Marked(AggregateEffect(md5, t, marks, now, a, b, id, o).marks, key, asked) <==>
      if key == "stats:processed:" + id then asked < now + 7 * 24 * 60 * 60 * 1000000 else Marked(marks, key, asked)
  {
  }

  lemma AppliedRun(
      md5: Md5, t: Tables, marks: map<string, int>, now: int, a: int, b: int, id: string, o: Outcomes, l: nat)
    requires Applies(o) && !Skipped(marks, id, now, o)
    ensures var e := AggregateEffect(md5, t, marks, now, a, b, id, o);
      && e.tables.log == o.Seen(t.log, 4)
      && Total(e.tables.totals, l) == Total(t.totals, l) + Count(o.Seen(t.log, 4), LinkSince(l, a))
      && e.marks == if Marks(o) then marks[RedisKeys.ProcessedKey(id) := now + PROCESSED_KEY_TTL] else marks
  {
    Incremented(t.totals, o.Seen(t.log, 4), a, l);
  }

  lemma SecondRun(
      md5: Md5, t: Tables, marks: map<string, int>, now: int, a: int, b: int, id: string, o: Outcomes, l: nat)
    requires Applies(o)
    ensures var e := AggregateEffect(md5, t, marks, now, a, b, id, o);
      Total(e.tables.totals, l) == Total(t.totals, l)
        + if Skipped(marks, id, now, o) then 0 else Count(o.Seen(t.log, 4), LinkSince(l, a))
  {
    if !Skipped(marks, id, now, o) {
      AppliedRun(md5, t, marks, now, a, b, id, o, l);
    }
  }

  /** The marks that the guard of a second run reads: those before or after the SET of the first. */
  function SeenMarks(marks: map<string, int>, e: Effect, afterSet: bool): map<string, int> {
    if afterSet then e.marks else marks
  }

  /**
   * Exactly when the mark protects `total_clicks`. A first run's commit takes effect, other rows are
   * committed, and a second run of the same request gets through its transaction; rows arrive during
   * both. It leaves a link's total alone if and only if its guard was answered, after the SET of the
   * first run, which was told of its commit, took effect and is less than seven days old; or if the link
   * has no clicks after the window's start. Otherwise it adds all of these clicks again.
   */
  lemma RerunCountsAgain(
      md5: Md5, t: Tables, marks: map<string, int>, now: int, a: int, b: int, id: string, o: Outcomes,
      between: seq<LogRow>, afterSet: bool, asked: int, o': Outcomes, l: nat)
    requires Applies(o) && !Skipped(marks, id, now, o)
    requires Applies(o') && !Marked(marks, RedisKeys.ProcessedKey(id), asked)
    ensures var e := AggregateEffect(md5, t, marks, now, a, b, id, o);
      var u := e.tables.(log := e.tables.log + between);
      var e' := AggregateEffect(md5, u, SeenMarks(marks, e, afterSet), asked, a, b, id, o');
      var protected := afterSet && Marks(o) && !o'.existsFails && asked < now + PROCESSED_KEY_TTL;
      var again := Count(o'.Seen(u.log, 4), LinkSince(l, a));
      && Total(e'.tables.totals, l) == Total(e.tables.totals, l) + (if protected then 0 else again)
      && (Total(e'.tables.totals, l) == Total(e.tables.totals, l) <==> protected || again == 0)
  {
    AppliedRun(md5, t, marks, now, a, b, id, o, l);
    var e := AggregateEffect(md5, t, marks, now, a, b, id, o);
    var u := e.tables.(log := e.tables.log + between);
    SecondRun(md5, u, SeenMarks(marks, e, afterSet), asked, a, b, id, o', l);
  }

  const ALL_FINE := Outcomes(false, true, 0, Replies.Fine, Replies.Fine, ([], [], [], []))

  /** One click, two runs, no fault: a guard read before the first run's SET lets the second count it again. */
  lemma GuardReadTooEarly(md5: Md5, row: LogRow, now: int, a: int, b: int, id: string, asked: int)
    requires a < row.clickedAt && now <= asked < now + PROCESSED_KEY_TTL
    ensures var t := Tables([row], map[], map[]);
      var e := AggregateEffect(md5, t, map[], now, a, b, id, ALL_FINE);
      && Marked(e.marks, RedisKeys.ProcessedKey(id), asked)
      && Total(e.tables.totals, row.linkId) == 1
      && Total(AggregateEffect(md5, e.tables, e.marks, asked, a, b, id, ALL_FINE).tables.totals, row.linkId) == 1
      && Total(AggregateEffect(md5, e.tables, map[], asked, a, b, id, ALL_FINE).tables.totals, row.linkId) == 2
  {
    var t, l := Tables([row], map[], map[]), row.linkId;
    QuietSeen(ALL_FINE, [row]);
    assert Count([row], LinkSince(l, a)) == 1;
    AppliedRun(md5, t, map[], now, a, b, id, ALL_FINE, l);
    var e := AggregateEffect(md5, t, map[], now, a, b, id, ALL_FINE);
    SecondRun(md5, e.tables, e.marks, asked, a, b, id, ALL_FINE, l);
    SecondRun(md5, e.tables, map[], asked, a, b, id, ALL_FINE, l);
  }

  // ---- Two aggregations at once

  /** The logs that the four statements of an aggregation see. */
  datatype Views = Views(s1: seq<LogRow>, s2: seq<LogRow>, s3: seq<LogRow>, s4: seq<LogRow>)
  {
    predicate From(log: seq<LogRow>) {
      log <= s1 <= s2 <= s3 <= s4
    }
  }

  /** What a transaction with these views makes of rows and totals when it commits. */
  function Rolled(md5: Md5, daily: map<StatKey, Stat>, v: Views, i: int, j: int): map<StatKey, Stat> {
    RolledUp(md5, daily, v.s1, v.s2, v.s3, DayStart(i), DayStart(j))
  }

  lemma CellOverlapped(md5: Md5, v: Views, w: Views, i: int, j: int, k: StatKey)
    requires v.s2 <= w.s2 && v.s3 <= w.s3 && Within(k, i, j)
    ensures
      CellAfter(md5, Some(Stat(ClicksOn(v.s1, k), |VisitorsOn(md5, v.s1, k)|,
                               HistOn(v.s2, Country, k), HistOn(v.s3, Referer, k))), w.s1, w.s2, w.s3, i, j, k)
      == var c := if ClicksOn(w.s1, k) > 0 then w.s1 else v.s1;
         Some(Stat(ClicksOn(c, k), |VisitorsOn(md5, c, k)|, HistOn(w.s2, Country, k), HistOn(w.s3, Referer, k)))
  {
    if HistOn(v.s2, Country, k) != map[] {
      HistPrefix(v.s2, w.s2, Country, k);
    }
    if HistOn(v.s3, Referer, k) != map[] {
      HistPrefix(v.s3, w.s3, Referer, k);
    }
  }

  lemma CellNew(md5: Md5, s1: seq<LogRow>, s2: seq<LogRow>, s3: seq<LogRow>, i: int, j: int, k: StatKey)
    ensures CellAfter(md5, None, s1, s2, s3, i, j, k) ==
      if Within(k, i, j) && ClicksOn(s1, k) > 0 then
        Some(Stat(ClicksOn(s1, k), |VisitorsOn(md5, s1, k)|, HistOn(s2, Country, k), HistOn(s3, Referer, k)))
      else None
  {
  }

  lemma OverlappingRows(
      md5: Md5, t: Tables, first: map<StatKey, Stat>, v: Views, w: Views, i: int, j: int, k: StatKey)
    requires Supported(t.daily, t.log)
    requires v.From(t.log) && w.From(t.log) && v.s2 <= w.s2 && v.s3 <= w.s3
    requires At(first, k) ==
      if Within(k, i, j) && ClicksOn(v.s1, k) > 0 then
        Some(Stat(ClicksOn(v.s1, k), |VisitorsOn(md5, v.s1, k)|, HistOn(v.s2, Country, k), HistOn(v.s3, Referer, k)))
      else At(t.daily, k)
    ensures At(Rolled(md5, first, w, i, j), k) ==
      if Within(k, i, j) && (ClicksOn(v.s1, k) > 0 || ClicksOn(w.s1, k) > 0) then
        var c := if ClicksOn(w.s1, k) > 0 then w.s1 else v.s1;
        Some(Stat(ClicksOn(c, k), |VisitorsOn(md5, c, k)|, HistOn(w.s2, Country, k), HistOn(w.s3, Referer, k)))
      else At(t.daily, k)
  {
    RolledUpAt(md5, first, w.s1, w.s2, w.s3, i, j, k);
    if k in t.daily {
      CellSupported(t.daily, t.log, v.s1, k);
    }
    if Within(k, i, j) && ClicksOn(v.s1, k) > 0 {
      CellOverlapped(md5, v, w, i, j, k);
    } else if Within(k, i, j) {
      CellNew(md5, w.s1, w.s2, w.s3, i, j, k);
    }
  }

  /** What a transaction with these views makes of the totals when it commits. */
  function Raised(totals: map<nat, nat>, v: Views, i: int): map<nat, nat> {
    IncrementTotalClicksSince(totals, v.s4, DayStart(i))
  }

  /**
   * Two aggregations of the same days in flight at once. The run with views `v` commits first; the one
   * with views `w` has waited for its rows, so that the second and third statements of `w` see no
   * less. The totals grow by both counts. A row is that of the later pass, except that a link-day the
   * later pass saw no click of keeps the counts of the earlier one; as nothing orders the first
   * statements, the later pass may bring a count back to an older log.
   */
  lemma OverlappingRuns(md5: Md5, t: Tables, v: Views, w: Views, i: int, j: int, k: StatKey, l: nat)
    requires Supported(t.daily, t.log)
    requires v.From(t.log) && w.From(t.log) && v.s2 <= w.s2 && v.s3 <= w.s3
    ensures At(Rolled(md5, Rolled(md5, t.daily, v, i, j), w, i, j), k) ==
      if Within(k, i, j) && (ClicksOn(v.s1, k) > 0 || ClicksOn(w.s1, k) > 0) then
        var c := if ClicksOn(w.s1, k) > 0 then w.s1 else v.s1;
        Some(Stat(ClicksOn(c, k), |VisitorsOn(md5, c, k)|, HistOn(w.s2, Country, k), HistOn(w.s3, Referer, k)))
      else At(t.daily, k)
    ensures Total(Raised(Raised(t.totals, v, i), w, i), l) == Total(t.totals, l)
      + Count(v.s4, LinkSince(l, DayStart(i))) + Count(w.s4, LinkSince(l, DayStart(i)))
  {
    Bracketing(md5, t.daily, t.log, v.s1, v.s2, v.s3, i, j, k);
    OverlappingRows(md5, t, Rolled(md5, t.daily, v, i, j), v, w, i, j, k);
    Incremented(t.totals, v.s4, DayStart(i), l);
    Incremented(Raised(t.totals, v, i), w.s4, DayStart(i), l);
  }

  // ---- Window composition

  lemma CellTwice(
      md5: Md5, before: Option<Stat>, log: seq<LogRow>, i: int, j: int, i': int, j': int, m: int, n: int, k: StatKey)
    requires Within(k, m, n) <==> Within(k, i, j) || Within(k, i', j')
    requires !(Within(k, i, j) && Within(k, i', j'))
    ensures CellAfter(md5, CellAfter(md5, before, log, log, log, i, j, k), log, log, log, i', j', k)
      == CellAfter(md5, before, log, log, log, m, n, k)
  {
  }

  lemma TwoWindows(
      md5: Md5, daily: map<StatKey, Stat>, log: seq<LogRow>, i: int, j: int, i': int, j': int, m: int, n: int)
    requires forall k :: Within(k, m, n) <==> Within(k, i, j) || Within(k, i', j')
    requires forall k :: !(Within(k, i, j) && Within(k, i', j'))
    ensures var first := RolledUp(md5, daily, log, log, log, DayStart(i), DayStart(j));
      RolledUp(md5, first, log, log, log, DayStart(i'), DayStart(j'))
        == RolledUp(md5, daily, log, log, log, DayStart(m), DayStart(n))
  {
    var first := RolledUp(md5, daily, log, log, log, DayStart(i), DayStart(j));
    var both := RolledUp(md5, first, log, log, log, DayStart(i'), DayStart(j'));
    var whole := RolledUp(md5, daily, log, log, log, DayStart(m), DayStart(n));
    forall k ensures At(both, k) == At(whole, k) {
      RolledUpAt(md5, daily, log, log, log, i, j, k);
      RolledUpAt(md5, first, log, log, log, i', j', k);
      RolledUpAt(md5, daily, log, log, log, m, n, k);
      CellTwice(md5, At(daily, k), log, i, j, i', j', m, n, k);
    }
    SameTable(both, whole);
  }

  /** Rolling up [i, n) at once, or [i, j) and [j, n) one after the other in either order, gives the same table. */
  lemma WindowsCompose(md5: Md5, daily: map<StatKey, Stat>, log: seq<LogRow>, i: int, j: int, n: int)
    requires i <= j <= n
    ensures var whole := RolledUp(md5, daily, log, log, log, DayStart(i), DayStart(n));
      var left := RolledUp(md5, daily, log, log, log, DayStart(i), DayStart(j));
      var right := RolledUp(md5, daily, log, log, log, DayStart(j), DayStart(n));
      && RolledUp(md5, left, log, log, log, DayStart(j), DayStart(n)) == whole
      && RolledUp(md5, right, log, log, log, DayStart(i), DayStart(j)) == whole
  {
    var whole := RolledUp(md5, daily, log, log, log, DayStart(i), DayStart(n));
    TwoWindows(md5, daily, log, i, j, j, n, i, n);
    TwoWindows(md5, daily, log, j, n, i, j, i, n);
  }
}
