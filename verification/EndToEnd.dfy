/** What the parts say together: responses over whole histories, and the way from redirects to summed clicks. */
module EndToEnd {
  import opened Slugs
  import opened Clicks
  import opened Queries
  import opened Rollup
  import opened RollupTheorems
  import opened Sums
  import opened PipelineTheorems
  import Pipeline
  import Accounting

  // ---- The summary after any history of the rollup

  function ClickCounts(from: RolledFrom): StatKey -> nat {
    (k: StatKey) => ClicksOn(from(k), k)
  }

  /** `from` gives each row of the link the prefix of the log that its two counters were taken from. */
  ghost predicate CountedFrom(md5: Md5, t: Tables, from: RolledFrom, l: nat) {
    forall k :: k in LinkDays(t.daily, l) ==>
      && from(k) <= t.log
      && t.daily[k].clicks == ClicksOn(from(k), k) && t.daily[k].visitors == |VisitorsOn(md5, from(k), k)|
  }

  lemma RowsAreCounted(md5: Md5, t: Tables, l: nat) returns (from: RolledFrom)
    requires Traced(md5, t.daily, t.log)
    ensures CountedFrom(md5, t, from, l)
  {
    var firsts := map k | k in t.daily ::
      var s1, s2, s3 :| FromPrefixes(md5, t.daily[k], t.log, s1, s2, s3, k);
      s1;
    from := (k: StatKey) => if k in firsts then firsts[k] else [];
    forall k | k in LinkDays(t.daily, l)
      ensures from(k) <= t.log
      ensures t.daily[k].clicks == ClicksOn(from(k), k) && t.daily[k].visitors == |VisitorsOn(md5, from(k), k)|
    {
      var s2, s3 :| FromPrefixes(md5, t.daily[k], t.log, firsts[k], s2, s3, k);
    }
  }

  /**
   * After any history a link's summary is the clicks of its rolled-up days, each as of the log its row
   * was taken from, and at least the distinct visitors among just these clicks.
   */
  lemma SummaryAfterHistory(md5: Md5, es: seq<Happening>, l: nat) returns (from: RolledFrom)
    ensures var t := History(md5, Tables([], map[], map[]), map[], es).tables;
      && CountedFrom(md5, t, from, l)
      && SumClicks(t.daily, l) == SumOver(LinkDays(t.daily, l), ClickCounts(from))
      && SumVisitors(t.daily, l) >= |VisitorsOver(md5, from, LinkDays(t.daily, l))|
  {
    var t := History(md5, Tables([], map[], map[]), map[], es).tables;
    EveryRowIsTraced(md5, Tables([], map[], map[]), map[], es);
    from := RowsAreCounted(md5, t, l);
    SumSame(LinkDays(t.daily, l), DayClicks(t.daily), ClickCounts(from));
    SummaryOvercountsVisitors(md5, t.daily, from, l);
  }

  // ---- From redirects to summed clicks

  lemma {:induction false} Injection(a: set<nat>, b: set<nat>, f: nat -> nat)
    requires forall x :: x in a ==> f(x) in b
    requires forall x, y :: x in a && y in a && f(x) == f(y) ==> x == y
    ensures |a| <= |b|
    decreases |a|
  {
    if a != {} {
      var x :| x in a;
      Injection(a - {x}, b - {f(x)}, f);
    }
  }

  /** The clicks offered by redirects whose slug belongs to link `l`. */
  function ClicksOf(s: Pipeline.State, l: nat): set<nat> {
    set c: nat | c < |s.api.clicks| && Unpadded(s.api.clicks[c].slug) in s.past.ever
      && s.past.ever[Unpadded(s.api.clicks[c].slug)] == l
  }

  /** Every entry is one click's own. */
  ghost predicate OnlyClicks(s: Pipeline.State) {
    OneEntryPerClick(s.stream.added) && forall i :: 0 <= i < |s.stream.added| ==> s.stream.added[i].click.Some?
  }

  lemma RowHasClick(net: NetLib, es: seq<Pipeline.Event>, i: nat)
    requires OnlyClicks(Reached(net, es)) && i < |Reached(net, es).db.log|
    ensures var s := Reached(net, es);
      ClickOf(s, i).Some? && ClickOf(s, i).value in ClicksOf(s, s.db.log[i].linkId)
  {
    AtMostOnceLogging(net, es);
    ClickLoggedAtMostOnce(net, es);
  }

  /** A link has at most as many rows as clicks were offered for its slug. */
  lemma RowsBelowOffers(net: NetLib, es: seq<Pipeline.Event>, l: nat)
    requires OnlyClicks(Reached(net, es))
    ensures var s := Reached(net, es); Count(s.db.log, Accounting.OfLink(l)) <= |ClicksOf(s, l)|
  {
    var s := Reached(net, es);
    var click := (i: nat) => if ClickOf(s, i).Some? then ClickOf(s, i).value else 0;
    var places := Places(s.db.log, Accounting.OfLink(l));
    CountIsPlaces(s.db.log, Accounting.OfLink(l));
    forall i | i in places ensures click(i) in ClicksOf(s, l) && ClickOf(s, i).Some? {
      RowHasClick(net, es, i);
    }
    ClickLoggedAtMostOnce(net, es);
    Injection(places, ClicksOf(s, l), click);
  }

  /**
   * End to end: let the aggregations of any run of the schedule see any prefix of the log that any run
   * of the pipeline has written, with one entry per click and no foreign entries. Then a link's summed
   * daily clicks are at most the clicks offered for its slug, and its total exceeds them at most by the
   * rows counted ahead of their day.
   */
  lemma SummedClicksWereOffered(
      net: NetLib, es: seq<Pipeline.Event>, md5: Md5, name: Accounting.DayName, start: int,
      fs: seq<Accounting.Event>, l: nat)
    requires OnlyClicks(Reached(net, es)) && Accounting.NamesDays(name)
    requires Accounting.Run(md5, name, l, Accounting.Opened(start), fs).tables.log <= Reached(net, es).db.log
    ensures var s, g := Reached(net, es), Accounting.Run(md5, name, l, Accounting.Opened(start), fs);
      && SumClicks(g.tables.daily, l) <= |ClicksOf(s, l)|
      && Total(g.tables.totals, l) <= |ClicksOf(s, l)| + g.early
  {
    var s, g := Reached(net, es), Accounting.Run(md5, name, l, Accounting.Opened(start), fs);
    Accounting.CrossDayAccounting(md5, name, l, start, fs);
    CountPrefix(g.tables.log, s.db.log, Accounting.OfLink(l));
    RowsBelowOffers(net, es, l);
  }
}
