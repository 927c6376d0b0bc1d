/** Scheduled aggregations day after day: what `daily_stats` and `links.total_clicks` have to do with each other. */
module Accounting {
  import opened Options
  import opened Clicks
  import opened Queries
  import opened Rollup
  import opened RollupTheorems
  import opened Sums
  import opened RedisKeys

  /** The request id of a day's scheduled runs; different days have different ids (RedisKeys.ScheduledKeyInjective). */
  type DayName = int -> string

  ghost predicate NamesDays(name: DayName) {
    forall d, e :: name(d) == name(e) ==> d == e
  }

  function MarkOf(name: DayName, d: int): string {
    ProcessedKey(name(d))
  }

  lemma MarkInjective(name: DayName, d: int, e: int)
    requires NamesDays(name) && MarkOf(name, d) == MarkOf(name, e)
    ensures d == e
  {
    assert MarkOf(name, d)[16..] == name(d);
    assert MarkOf(name, e)[16..] == name(e);
  }

  datatype Request = Request(startAt: int, endAt: int, requestID: string)

  /** The worker's stats handler: without a payload, or a StartAt in it, the window is today, 00:00 to 00:00 UTC. */
  function RuntimeRequest(name: DayName, payload: Option<Request>, now: int): Request {
    match payload
    case Some(p) => p
    case None =>
      var today := DayOf(now);
      Request(DayStart(today), DayStart(today + 1), name(today))
  }

  /** The runtime window is the whole day that contains `now`; a payload's own window is left alone. */
  lemma RuntimeWindowIsToday(name: DayName, now: int, t: int, p: Request)
    ensures var r := RuntimeRequest(name, None, now);
      && r.startAt <= now < r.endAt
      && (r.startAt <= t < r.endAt <==> DayOf(t) == DayOf(now))
      && r.requestID == name(DayOf(now))
    ensures RuntimeRequest(name, Some(p), now) == p
  {
  }

  /**
   * One link's books. `rolled` are the days rolled up so far. `midnight` counts the link's rows that
   * were rolled up stamped exactly at a day's start, `late` those of a run's own day that were committed
   * between its first and its last statement, and `early` those of later days that a run's last
   * statement found, because it crossed midnight or a row was dated ahead.
   */
  datatype Books = Books(
    now: int, tables: Tables, marks: map<string, int>, rolled: set<int>, midnight: nat, late: nat, early: nat)

  datatype Event =
    | Wait(time: nat)
    | Logged(rows: seq<LogRow>)
    | Scheduled(outcomes: Outcomes)

  /** A guard that answers and is set, and a commit whose outcome is known. */
  predicate Orderly(o: Outcomes) {
    !o.existsFails && !o.mark.Refused? && !o.commit.ReplyLost?
  }

  function StampedAt(l: nat, t: int): LogRow -> bool {
    (r: LogRow) => r.linkId == l && r.clickedAt == t
  }

  /** Rows of link `l` on day `d`, its first microsecond left out. */
  function OnDayAfterStart(l: nat, d: int): LogRow -> bool {
    (r: LogRow) => KeyOf(r) == StatKey(l, d) && DayStart(d) < r.clickedAt
  }

  function AfterDay(l: nat, d: int): LogRow -> bool {
    (r: LogRow) => r.linkId == l && d < DayOf(r.clickedAt)
  }

  predicate Commits(o: Outcomes) {
    o.begin && !(1 <= o.failAt <= 4) && o.commit.Fine?
  }

  /** The history after a committed run of the current day. */
  function Noted(l: nat, g: Books, o: Outcomes): Books {
    var d := DayOf(g.now);
    var s1, s4 := o.Seen(g.tables.log, 1), o.Seen(g.tables.log, 4);
    g.(rolled := g.rolled + {d}, midnight := g.midnight + Count(s1, StampedAt(l, DayStart(d))),
       late := g.late + Count(s4[|s1|..], OnDayAfterStart(l, d)), early := g.early + Count(s4, AfterDay(l, d)))
  }

  predicate Idle(name: DayName, g: Books, o: Outcomes) {
    Marked(g.marks, MarkOf(name, DayOf(g.now)), g.now) || !Commits(o)
  }

  /** The effect of `Aggregate` on the runtime request. */
  function ScheduledEffect(md5: Md5, name: DayName, g: Books, o: Outcomes): Effect {
    var r := RuntimeRequest(name, None, g.now);
    AggregateEffect(md5, g.tables, g.marks, g.now, r.startAt, r.endAt, r.requestID, o)
  }

  function BooksAfter(name: DayName, l: nat, g: Books, o: Outcomes, e: Effect): Books {
    (if Idle(name, g, o) then g else Noted(l, g, o)).(tables := e.tables, marks := e.marks)
  }

  function RunScheduled(md5: Md5, name: DayName, l: nat, g: Books, o: Outcomes): Books {
    BooksAfter(name, l, g, o, ScheduledEffect(md5, name, g, o))
  }

  function Step(md5: Md5, name: DayName, l: nat, g: Books, e: Event): Books {
    match e
    case Wait(d) => g.(now := g.now + d)
    case Logged(rows) => g.(tables := g.tables.(log := g.tables.log + rows))
    case Scheduled(o) => if Orderly(o) then RunScheduled(md5, name, l, g, o) else g
  }

  function Run(md5: Md5, name: DayName, l: nat, g: Books, es: seq<Event>): Books
    decreases |es|
  {
    if es == [] then g else Run(md5, name, l, Step(md5, name, l, g, es[0]), es[1..])
  }

  function Opened(now: int): Books {
    Books(now, Tables([], map[], map[]), map[], {}, 0, 0, 0)
  }

  // ---- The invariant

  function RolledRow(l: nat, rolled: set<int>): LogRow -> bool {
    (r: LogRow) => r.linkId == l && DayOf(r.clickedAt) in rolled
  }

  ghost predicate DaysInv(name: DayName, g: Books) {
    && (forall k :: k in g.tables.daily ==> k.date in g.rolled)
    && (forall d :: d in g.rolled ==> d <= DayOf(g.now))
    && (forall d :: d in g.rolled ==> MarkOf(name, d) in g.marks && DayStart(d + 1) <= g.marks[MarkOf(name, d)])
  }

  ghost predicate Balance(l: nat, t: Tables, rolled: set<int>, midnight: nat, late: nat, early: nat) {
    && SumClicks(t.daily, l) + late + early == Total(t.totals, l) + midnight
    && SumClicks(t.daily, l) <= Count(t.log, RolledRow(l, rolled))
    && Total(t.totals, l) <= Count(t.log, RolledRow(l, rolled)) + early
  }

  ghost predicate Inv(name: DayName, l: nat, g: Books) {
    DaysInv(name, g) && Balance(l, g.tables, g.rolled, g.midnight, g.late, g.early)
  }

  /** A day already rolled up is skipped for the rest of that day. */
  lemma RolledDayIsMarked(name: DayName, g: Books)
    requires DaysInv(name, g) && DayOf(g.now) in g.rolled
    ensures Marked(g.marks, MarkOf(name, DayOf(g.now)), g.now)
  {
  }

  /** One more row for the link, or none if it counts no clicks. */
  lemma SumOfOneMore(daily: map<StatKey, Stat>, after: map<StatKey, Stat>, l: nat, key: StatKey, clicks: nat)
    requires key.linkId == l && key !in daily
    requires forall k: StatKey :: k.linkId == l && k != key ==> At(after, k) == At(daily, k)
    requires if clicks > 0 then key in after && after[key].clicks == clicks else key !in after
    ensures SumClicks(after, l) == SumClicks(daily, l) + clicks
  {
    forall k ensures k in LinkDays(after, l) && k != key <==> k in LinkDays(daily, l) {
      assert k.linkId == l && k != key ==> At(after, k) == At(daily, k);
    }
    assert LinkDays(after, l) - {key} == LinkDays(daily, l);
    forall k | k in LinkDays(daily, l) ensures DayClicks(after)(k) == DayClicks(daily)(k) {
      assert At(after, k) == At(daily, k);
    }
    SumSame(LinkDays(daily, l), DayClicks(after), DayClicks(daily));
    if key in after {
      SumTake(LinkDays(after, l), DayClicks(after), key);
    } else {
      assert LinkDays(after, l) - {key} == LinkDays(after, l);
    }
  }

  /** Rolling up a new day adds one row for the link, if it had clicks. */
  lemma SumOfNewDay(
      md5: Md5, daily: map<StatKey, Stat>, s1: seq<LogRow>, s2: seq<LogRow>, s3: seq<LogRow>, d: int, l: nat)
    requires forall k :: k in daily ==> k.date != d
    ensures var after := RolledUp(md5, daily, s1, s2, s3, DayStart(d), DayStart(d + 1));
      && SumClicks(after, l) == SumClicks(daily, l) + ClicksOn(s1, StatKey(l, d))
      && (forall k :: k in after ==> k in daily || k.date == d)
      && (forall k: StatKey :: k.date != d ==> At(after, k) == At(daily, k))
  {
    var after := RolledUp(md5, daily, s1, s2, s3, DayStart(d), DayStart(d + 1));
    var key := StatKey(l, d);
    forall k: StatKey | k.date != d ensures At(after, k) == At(daily, k) {
      RolledUpAt(md5, daily, s1, s2, s3, d, d + 1, k);
    }
    forall k | k in after ensures k in daily || k.date == d {
      assert k.date != d ==> At(after, k) == At(daily, k);
    }
    RolledUpAt(md5, daily, s1, s2, s3, d, d + 1, key);
    SumOfOneMore(daily, after, l, key, ClicksOn(s1, key));
  }

  /** The half-open day window and the strict unbounded count differ by the midnight rows and by later days. */
  lemma WindowsReconcile(log: seq<LogRow>, d: int, l: nat)
    ensures ClicksOn(log, StatKey(l, d)) + Count(log, AfterDay(l, d))
      == Count(log, LinkSince(l, DayStart(d))) + Count(log, StampedAt(l, DayStart(d)))
    ensures ClicksOn(log, StatKey(l, d)) == Count(log, OnDayAfterStart(l, d)) + Count(log, StampedAt(l, DayStart(d)))
  {
    CountSplit(log, OnDay(StatKey(l, d)), OnDayAfterStart(l, d), StampedAt(l, DayStart(d)));
    CountSplit(log, LinkSince(l, DayStart(d)), OnDayAfterStart(l, d), AfterDay(l, d));
  }

  lemma BoundGrows(log: seq<LogRow>, log': seq<LogRow>, l: nat, rolled: set<int>)
    requires log <= log'
    ensures Count(log, RolledRow(l, rolled)) <= Count(log', RolledRow(l, rolled))
  {
    CountPrefix(log, log', RolledRow(l, rolled));
  }

  lemma BoundOfNewDay(log: seq<LogRow>, l: nat, rolled: set<int>, d: int)
    requires d !in rolled
    ensures Count(log, RolledRow(l, rolled + {d})) == Count(log, RolledRow(l, rolled)) + ClicksOn(log, StatKey(l, d))
  {
    CountSplit(log, RolledRow(l, rolled + {d}), RolledRow(l, rolled), OnDay(StatKey(l, d)));
  }

  /** Both counts of a new day: what the run adds to the sum and to the total. */
  lemma NewDayCounts(s1: seq<LogRow>, s4: seq<LogRow>, d: int, l: nat)
    requires s1 <= s4
    ensures
      ClicksOn(s1, StatKey(l, d)) + Count(s4[|s1|..], OnDayAfterStart(l, d)) + Count(s4, AfterDay(l, d))
        == Count(s4, LinkSince(l, DayStart(d))) + Count(s1, StampedAt(l, DayStart(d)))
    ensures ClicksOn(s1, StatKey(l, d)) <= ClicksOn(s4, StatKey(l, d))
    ensures Count(s4, LinkSince(l, DayStart(d))) <= ClicksOn(s4, StatKey(l, d)) + Count(s4, AfterDay(l, d))
  {
    WindowsReconcile(s1, d, l);
    WindowsReconcile(s4, d, l);
    assert s4 == s1 + s4[|s1|..];
    CountAppend(s1, s4[|s1|..], OnDayAfterStart(l, d));
    CountPrefix(s1, s4, OnDay(StatKey(l, d)));
  }

  lemma NewDayBound(log: seq<LogRow>, s4: seq<LogRow>, l: nat, rolled: set<int>, d: int)
    requires log <= s4 && d !in rolled
    ensures Count(log, RolledRow(l, rolled)) + ClicksOn(s4, StatKey(l, d)) <= Count(s4, RolledRow(l, rolled + {d}))
  {
    BoundGrows(log, s4, l, rolled);
    BoundOfNewDay(s4, l, rolled, d);
  }

  lemma CommittedEffect(
      md5: Md5, t: Tables, marks: map<string, int>, now: int, a: int, b: int, id: string, o: Outcomes)
    requires !o.existsFails && !o.mark.Refused? && Commits(o) && !Marked(marks, ProcessedKey(id), now)
    ensures var e := AggregateEffect(md5, t, marks, now, a, b, id, o);
      e.tables == AfterCommit(md5, t, o, a, b) && e.marks == marks[ProcessedKey(id) := now + PROCESSED_KEY_TTL]
  {
  }

  /** Any other run of the schedule: at most the log has grown. */
  ghost predicate OnlyLogGrew(g: Books, o: Outcomes, e: Effect) {
    && e.marks == g.marks && e.tables.daily == g.tables.daily && e.tables.totals == g.tables.totals
    && exists n :: e.tables.log == o.Seen(g.tables.log, n)
  }

  lemma IdleEffect(md5: Md5, name: DayName, g: Books, o: Outcomes)
    requires Orderly(o) && Idle(name, g, o)
    ensures OnlyLogGrew(g, o, ScheduledEffect(md5, name, g, o))
  {
    var e := ScheduledEffect(md5, name, g, o);
    var n := if Marked(g.marks, MarkOf(name, DayOf(g.now)), g.now) || !o.begin then 0
             else if 1 <= o.failAt <= 4 then o.failAt else 4;
    assert e.tables.log == o.Seen(g.tables.log, n);
  }

  lemma CommittedKeepsDays(name: DayName, g: Books, g': Books)
    requires NamesDays(name) && DaysInv(name, g)
    requires var d := DayOf(g.now);
      && g'.now == g.now && g'.rolled == g.rolled + {d}
      && (forall k :: k in g'.tables.daily ==> k in g.tables.daily || k.date == d)
      && g'.marks == g.marks[MarkOf(name, d) := g.now + PROCESSED_KEY_TTL]
    ensures DaysInv(name, g')
  {
    var d := DayOf(g.now);
    forall e | e in g'.rolled
      ensures MarkOf(name, e) in g'.marks && DayStart(e + 1) <= g'.marks[MarkOf(name, e)]
    {
      if e in g.rolled && MarkOf(name, e) == MarkOf(name, d) {
        MarkInjective(name, e, d);
      }
    }
  }

  /** The committed run of a day not rolled up before. */
  lemma NewDaySum(md5: Md5, t: Tables, o: Outcomes, d: int, l: nat)
    requires forall k :: k in t.daily ==> k.date != d
    ensures var after := AfterCommit(md5, t, o, DayStart(d), DayStart(d + 1)).daily;
      && SumClicks(after, l) == SumClicks(t.daily, l) + ClicksOn(o.Seen(t.log, 1), StatKey(l, d))
      && (forall k :: k in after ==> k in t.daily || k.date == d)
      && (forall k: StatKey :: k.date != d ==> At(after, k) == At(t.daily, k))
  {
    SumOfNewDay(md5, t.daily, o.Seen(t.log, 1), o.Seen(t.log, 2), o.Seen(t.log, 3), d, l);
  }

  /** What a committed run of day `d` makes of the tables, as far as link `l` is concerned. */
  ghost predicate TablesRolled(d: int, l: nat, t: Tables, o: Outcomes, t': Tables) {
    && t'.log == o.Seen(t.log, 4)
    && SumClicks(t'.daily, l) == SumClicks(t.daily, l) + ClicksOn(o.Seen(t.log, 1), StatKey(l, d))
    && Total(t'.totals, l) == Total(t.totals, l) + Count(t'.log, LinkSince(l, DayStart(d)))
    && (forall k :: k in t'.daily ==> k in t.daily || k.date == d)
    && (forall k: StatKey :: k.date != d ==> At(t'.daily, k) == At(t.daily, k))
  }

  ghost predicate DayRolled(name: DayName, l: nat, g: Books, o: Outcomes, e: Effect) {
    var d := DayOf(g.now);
    TablesRolled(d, l, g.tables, o, e.tables) && e.marks == g.marks[MarkOf(name, d) := g.now + PROCESSED_KEY_TTL]
  }

  lemma CommittedTables(md5: Md5, t: Tables, o: Outcomes, d: int, l: nat)
    requires forall k :: k in t.daily ==> k.date != d
    ensures TablesRolled(d, l, t, o, AfterCommit(md5, t, o, DayStart(d), DayStart(d + 1)))
  {
    NewDaySum(md5, t, o, d, l);
    Incremented(t.totals, o.Seen(t.log, 4), DayStart(d), l);
  }

  lemma NotRolledYet(name: DayName, g: Books, o: Outcomes)
    requires DaysInv(name, g) && !Idle(name, g, o)
    ensures DayOf(g.now) !in g.rolled
    ensures forall k :: k in g.tables.daily ==> k.date != DayOf(g.now)
  {
    if DayOf(g.now) in g.rolled {
      RolledDayIsMarked(name, g);
    }
  }

  lemma ScheduledCommits(name: DayName, g: Books, o: Outcomes, r: Request, d: int)
    requires Orderly(o) && !Idle(name, g, o) && d == DayOf(g.now) && r == RuntimeRequest(name, None, g.now)
    ensures r == Request(DayStart(d), DayStart(d + 1), name(d))
    ensures !o.existsFails && !o.mark.Refused? && Commits(o) && !Marked(g.marks, ProcessedKey(r.requestID), g.now)
  {
  }

  lemma CommittedRolls(
      md5: Md5, g: Books, o: Outcomes, r: Request, d: int, l: nat, e: Effect)
    requires !o.existsFails && !o.mark.Refused? && Commits(o) && !Marked(g.marks, ProcessedKey(r.requestID), g.now)
    requires r.startAt == DayStart(d) && r.endAt == DayStart(d + 1)
    requires e == AggregateEffect(md5, g.tables, g.marks, g.now, r.startAt, r.endAt, r.requestID, o)
    requires forall k :: k in g.tables.daily ==> k.date != d
    ensures TablesRolled(d, l, g.tables, o, e.tables)
    ensures e.marks == g.marks[ProcessedKey(r.requestID) := g.now + PROCESSED_KEY_TTL]
  {
    CommittedEffect(md5, g.tables, g.marks, g.now, r.startAt, r.endAt, r.requestID, o);
    CommittedTables(md5, g.tables, o, d, l);
  }

  lemma CommittedRun(md5: Md5, name: DayName, l: nat, g: Books, o: Outcomes, e: Effect)
    requires DaysInv(name, g) && Orderly(o) && !Idle(name, g, o) && e == ScheduledEffect(md5, name, g, o)
    ensures DayRolled(name, l, g, o, e) && DayOf(g.now) !in g.rolled
  {
    var d, r := DayOf(g.now), RuntimeRequest(name, None, g.now);
    NotRolledYet(name, g, o);
    ScheduledCommits(name, g, o, r, d);
    CommittedRolls(md5, g, o, r, d, l, e);
  }

  lemma NewDayKeepsDays(name: DayName, l: nat, g: Books, o: Outcomes, e: Effect)
    requires NamesDays(name) && DaysInv(name, g) && !Idle(name, g, o)
    requires DayRolled(name, l, g, o, e)
    ensures DaysInv(name, BooksAfter(name, l, g, o, e))
  {
    CommittedKeepsDays(name, g, BooksAfter(name, l, g, o, e));
  }

  lemma BalanceMovesOn(
      l: nat, t: Tables, t': Tables, s1: seq<LogRow>, rolled: set<int>, d: int, midnight: nat, late: nat, early: nat)
    requires Balance(l, t, rolled, midnight, late, early)
    requires d !in rolled && t.log <= t'.log && s1 <= t'.log
    requires SumClicks(t'.daily, l) == SumClicks(t.daily, l) + ClicksOn(s1, StatKey(l, d))
    requires Total(t'.totals, l) == Total(t.totals, l) + Count(t'.log, LinkSince(l, DayStart(d)))
    ensures Balance(l, t', rolled + {d},
                    midnight + Count(s1, StampedAt(l, DayStart(d))),
                    late + Count(t'.log[|s1|..], OnDayAfterStart(l, d)),
                    early + Count(t'.log, AfterDay(l, d)))
  {
    NewDayCounts(s1, t'.log, d, l);
    NewDayBound(t.log, t'.log, l, rolled, d);
  }

  lemma NewDayBalances(name: DayName, l: nat, g: Books, o: Outcomes, e: Effect)
    requires Inv(name, l, g) && Orderly(o) && !Idle(name, g, o)
    requires DayRolled(name, l, g, o, e) && DayOf(g.now) !in g.rolled
    ensures var g' := BooksAfter(name, l, g, o, e);
      Balance(l, g'.tables, g'.rolled, g'.midnight, g'.late, g'.early)
  {
    SeenGrows(o, g.tables.log);
    BalanceMovesOn(
      l, g.tables, e.tables, o.Seen(g.tables.log, 1), g.rolled, DayOf(g.now), g.midnight, g.late, g.early);
  }

  lemma IdleKeeps(name: DayName, l: nat, g: Books, o: Outcomes, e: Effect)
    requires Inv(name, l, g) && Orderly(o) && Idle(name, g, o)
    requires OnlyLogGrew(g, o, e)
    ensures Inv(name, l, BooksAfter(name, l, g, o, e))
  {
    SeenGrows(o, g.tables.log);
    BoundGrows(g.tables.log, e.tables.log, l, g.rolled);
  }

  lemma ScheduledKeeps(md5: Md5, name: DayName, l: nat, g: Books, o: Outcomes)
    requires NamesDays(name)
    requires Inv(name, l, g) && Orderly(o)
    ensures Inv(name, l, RunScheduled(md5, name, l, g, o))
  {
    var e := ScheduledEffect(md5, name, g, o);
    if Idle(name, g, o) {
      IdleEffect(md5, name, g, o);
      IdleKeeps(name, l, g, o, e);
    } else {
      CommittedRun(md5, name, l, g, o, e);
      NewDayKeepsDays(name, l, g, o, e);
      NewDayBalances(name, l, g, o, e);
    }
  }

  lemma StepKeeps(md5: Md5, name: DayName, l: nat, g: Books, e: Event)
    requires NamesDays(name)
    requires Inv(name, l, g)
    ensures Inv(name, l, Step(md5, name, l, g, e))
  {
    match e {
      case Wait(d) =>
      case Logged(rows) => BoundGrows(g.tables.log, g.tables.log + rows, l, g.rolled);
      case Scheduled(o) =>
        if Orderly(o) {
          ScheduledKeeps(md5, name, l, g, o);
        }
    }
  }

  lemma {:induction false} RunKeeps(md5: Md5, name: DayName, l: nat, g: Books, es: seq<Event>)
    requires NamesDays(name)
    requires Inv(name, l, g)
    ensures Inv(name, l, Run(md5, name, l, g, es))
    decreases |es|
  {
    if es != [] {
      StepKeeps(md5, name, l, g, es[0]);
      RunKeeps(md5, name, l, Step(md5, name, l, g, es[0]), es[1..]);
    }
  }

  function OfLink(l: nat): LogRow -> bool {
    (r: LogRow) => r.linkId == l
  }

  /**
   * Cross-day accounting, for every run and every dating of the rows: a link's summed daily clicks and
   * its total differ by exactly the midnight rows, which only the sum counts, the late rows, which only
   * the total counts, and the early rows, which the total counts ahead of their own day. The sum never
   * exceeds the rows of the link in the log, and the total exceeds them at most by the early rows.
   */
  lemma CrossDayAccounting(md5: Md5, name: DayName, l: nat, start: int, es: seq<Event>)
    requires NamesDays(name)
    ensures var g := Run(md5, name, l, Opened(start), es);
      && SumClicks(g.tables.daily, l) + g.late + g.early == Total(g.tables.totals, l) + g.midnight
      && SumClicks(g.tables.daily, l) <= Count(g.tables.log, OfLink(l))
      && Total(g.tables.totals, l) <= Count(g.tables.log, OfLink(l)) + g.early
  {
    var g := Run(md5, name, l, Opened(start), es);
    RunKeeps(md5, name, l, Opened(start), es);
    CountWithin(g.tables.log, RolledRow(l, g.rolled), OfLink(l));
  }

  // ---- No row of a later day

  predicate Dated(rows: seq<LogRow>, d: int) {
    forall i :: 0 <= i < |rows| ==> DayOf(rows[i].clickedAt) <= d
  }

  /** Every row that arrives, also between the statements of a run, is of the clock's day or an earlier one. */
  predicate Punctual(md5: Md5, name: DayName, l: nat, g: Books, es: seq<Event>)
    decreases |es|
  {
    es == [] ||
    (&& (es[0].Logged? ==> Dated(es[0].rows, DayOf(g.now)))
     && (es[0].Scheduled? ==> Dated(es[0].outcomes.Seen([], 4), DayOf(g.now)))
     && Punctual(md5, name, l, Step(md5, name, l, g, es[0]), es[1..]))
  }

  lemma SeenSplits(o: Outcomes, log: seq<LogRow>, n: nat)
    ensures o.Seen(log, n) == log + o.Seen([], n)
  {
  }

  lemma SeenDated(o: Outcomes, log: seq<LogRow>, n: nat, d: int)
    requires Dated(log, d) && Dated(o.Seen([], 4), d)
    ensures Dated(o.Seen(log, n), d)
  {
    SeenGrows(o, []);
    SeenSplits(o, log, n);
    assert o.Seen([], n) <= o.Seen([], 4);
  }

  lemma DatedHasNoLater(log: seq<LogRow>, d: int, l: nat)
    requires Dated(log, d)
    ensures Count(log, AfterDay(l, d)) == 0
  {
    CountPositive(log, AfterDay(l, d));
  }

  lemma PunctualStep(md5: Md5, name: DayName, l: nat, g: Books, e: Event)
    requires Dated(g.tables.log, DayOf(g.now)) && DaysInv(name, g)
    requires e.Logged? ==> Dated(e.rows, DayOf(g.now))
    requires e.Scheduled? ==> Dated(e.outcomes.Seen([], 4), DayOf(g.now))
    ensures var g' := Step(md5, name, l, g, e);
      g'.early == g.early && Dated(g'.tables.log, DayOf(g'.now))
  {
    if e.Scheduled? && Orderly(e.outcomes) {
      var o, d := e.outcomes, DayOf(g.now);
      SeenDated(o, g.tables.log, 4, d);
      DatedHasNoLater(o.Seen(g.tables.log, 4), d, l);
      var f := ScheduledEffect(md5, name, g, o);
      if Idle(name, g, o) {
        IdleEffect(md5, name, g, o);
        var n :| f.tables.log == o.Seen(g.tables.log, n);
        SeenDated(o, g.tables.log, n, d);
      } else {
        CommittedRun(md5, name, l, g, o, f);
      }
    }
  }

  lemma {:induction false} NothingEarly(md5: Md5, name: DayName, l: nat, g: Books, es: seq<Event>)
    requires NamesDays(name) && Inv(name, l, g)
    requires Dated(g.tables.log, DayOf(g.now)) && Punctual(md5, name, l, g, es)
    ensures Run(md5, name, l, g, es).early == g.early
    decreases |es|
  {
    if es != [] {
      PunctualStep(md5, name, l, g, es[0]);
      StepKeeps(md5, name, l, g, es[0]);
      NothingEarly(md5, name, l, Step(md5, name, l, g, es[0]), es[1..]);
    }
  }

  /** Without rows of later days neither the sum nor the total exceeds the link's rows in the log. */
  lemma PunctualAccounting(md5: Md5, name: DayName, l: nat, start: int, es: seq<Event>)
    requires NamesDays(name) && Punctual(md5, name, l, Opened(start), es)
    ensures var g := Run(md5, name, l, Opened(start), es);
      && SumClicks(g.tables.daily, l) + g.late == Total(g.tables.totals, l) + g.midnight
      && SumClicks(g.tables.daily, l) <= Count(g.tables.log, OfLink(l))
      && Total(g.tables.totals, l) <= Count(g.tables.log, OfLink(l))
  {
    CrossDayAccounting(md5, name, l, start, es);
    NothingEarly(md5, name, l, Opened(start), es);
  }

  predicate AllQuiet(es: seq<Event>) {
    forall e :: e in es && e.Scheduled? ==> Quiet(e.outcomes)
  }

  lemma {:induction false} NothingLate(md5: Md5, name: DayName, l: nat, g: Books, es: seq<Event>)
    requires AllQuiet(es)
    ensures Run(md5, name, l, g, es).late == g.late
    decreases |es|
  {
    if es != [] {
      assert es[0] in es && forall e :: e in es[1..] ==> e in es;
      if es[0].Scheduled? {
        QuietSeen(es[0].outcomes, g.tables.log);
      }
      NothingLate(md5, name, l, Step(md5, name, l, g, es[0]), es[1..]);
    }
  }

  /** With no commit between the statements of a run either, the sum is the total plus the midnight rows. */
  lemma QuietAccounting(md5: Md5, name: DayName, l: nat, start: int, es: seq<Event>)
    requires NamesDays(name) && AllQuiet(es) && Punctual(md5, name, l, Opened(start), es)
    ensures var g := Run(md5, name, l, Opened(start), es);
      SumClicks(g.tables.daily, l) == Total(g.tables.totals, l) + g.midnight
  {
    PunctualAccounting(md5, name, l, start, es);
    NothingLate(md5, name, l, Opened(start), es);
  }

  // ---- A rolled-up day is closed

  lemma StepKeepsRolledDay(md5: Md5, name: DayName, l: nat, g: Books, e: Event, k: StatKey)
    requires NamesDays(name) && DaysInv(name, g) && k.date in g.rolled
    ensures var g' := Step(md5, name, l, g, e);
      At(g'.tables.daily, k) == At(g.tables.daily, k) && k.date in g'.rolled && DaysInv(name, g')
      && g.tables.log <= g'.tables.log
  {
    if e.Scheduled? && Orderly(e.outcomes) {
      var o := e.outcomes;
      SeenGrows(o, g.tables.log);
      if Idle(name, g, o) {
        IdleEffect(md5, name, g, o);
      } else {
        var f := ScheduledEffect(md5, name, g, o);
        CommittedRun(md5, name, l, g, o, f);
        NewDayKeepsDays(name, l, g, o, f);
      }
    }
  }

  lemma {:induction false} RolledDayStays(md5: Md5, name: DayName, l: nat, g: Books, es: seq<Event>, k: StatKey)
    requires NamesDays(name) && DaysInv(name, g) && k.date in g.rolled
    ensures var g' := Run(md5, name, l, g, es);
      At(g'.tables.daily, k) == At(g.tables.daily, k) && g.tables.log <= g'.tables.log
    decreases |es|
  {
    if es != [] {
      StepKeepsRolledDay(md5, name, l, g, es[0], k);
      RolledDayStays(md5, name, l, Step(md5, name, l, g, es[0]), es[1..], k);
    }
  }

  lemma GrowthWithoutKey(log: seq<LogRow>, log': seq<LogRow>, k: StatKey)
    requires log <= log'
    ensures ClicksOn(log', k) == ClicksOn(log, k) <==> forall i :: |log| <= i < |log'| ==> KeyOf(log'[i]) != k
  {
    var more := log'[|log|..];
    assert log' == log + more;
    CountAppend(log, more, OnDay(k));
    CountPositive(more, OnDay(k));
    assert forall i :: 0 <= i < |more| ==> more[i] == log'[|log| + i];
    assert forall i :: |log| <= i < |log'| ==> log'[i] in more;
  }

  lemma HistogramStays(log: seq<LogRow>, log': seq<LogRow>, col: Column, k: StatKey)
    requires log <= log' && forall i :: |log| <= i < |log'| ==> KeyOf(log'[i]) != k
    ensures HistOn(log', col, k) == HistOn(log, col, k)
  {
    assert forall r :: r in log' && KeyOf(r) == k <==> r in log && KeyOf(r) == k;
    assert ValuesOn(log', col, k) == ValuesOn(log, col, k);
    assert log' == log + log'[|log|..];
    forall x ensures Count(log', WithValue(col, k, x)) == Count(log, WithValue(col, k, x)) {
      CountAppend(log, log'[|log|..], WithValue(col, k, x));
      CountPositive(log'[|log|..], WithValue(col, k, x));
    }
  }

  /** Rows of other link-days leave all figures of a link-day as they were. */
  lemma FiguresStay(md5: Md5, log: seq<LogRow>, log': seq<LogRow>, k: StatKey)
    requires log <= log' && forall i :: |log| <= i < |log'| ==> KeyOf(log'[i]) != k
    ensures DirectStat(md5, log', k) == DirectStat(md5, log, k)
  {
    GrowthWithoutKey(log, log', k);
    assert forall r :: r in log' && KeyOf(r) == k <==> r in log && KeyOf(r) == k;
    assert VisitorsOn(md5, log', k) == VisitorsOn(md5, log, k);
    HistogramStays(log, log', Country, k);
    HistogramStays(log, log', Referer, k);
  }

  /**
   * When `daily_stats` is right about a day: once the day is rolled up, a click count that is right
   * then, be it of a row or of none, is right ever after exactly if no further click of that link and
   * day is logged.
   */
  lemma DayIsRightIffNothingFollows(md5: Md5, name: DayName, l: nat, g: Books, es: seq<Event>, k: StatKey)
    requires NamesDays(name) && DaysInv(name, g) && k.date in g.rolled
    requires DayClicks(g.tables.daily)(k) == ClicksOn(g.tables.log, k)
    ensures var t := Run(md5, name, l, g, es).tables;
      DayClicks(t.daily)(k) == ClicksOn(t.log, k) <==>
        forall i :: |g.tables.log| <= i < |t.log| ==> KeyOf(t.log[i]) != k
  {
    RolledDayStays(md5, name, l, g, es, k);
    var t := Run(md5, name, l, g, es).tables;
    assert At(t.daily, k) == At(g.tables.daily, k);
    GrowthWithoutKey(g.tables.log, t.log, k);
  }

  /** The row of a link-day is what its clicks in the log make it; without clicks there is no row. */
  ghost predicate RowRight(md5: Md5, t: Tables, k: StatKey) {
    At(t.daily, k) == if ClicksOn(t.log, k) > 0 then Some(DirectStat(md5, t.log, k)) else None
  }

  /** The same for all figures of the row: clicks, visitors, countries and referers. */
  lemma RowIsRightIffNothingFollows(md5: Md5, name: DayName, l: nat, g: Books, es: seq<Event>, k: StatKey)
    requires NamesDays(name) && DaysInv(name, g) && k.date in g.rolled
    requires RowRight(md5, g.tables, k)
    ensures var t := Run(md5, name, l, g, es).tables;
      RowRight(md5, t, k) <==> forall i :: |g.tables.log| <= i < |t.log| ==> KeyOf(t.log[i]) != k
  {
    var t := Run(md5, name, l, g, es).tables;
    RolledDayStays(md5, name, l, g, es, k);
    DayIsRightIffNothingFollows(md5, name, l, g, es, k);
    if forall i :: |g.tables.log| <= i < |t.log| ==> KeyOf(t.log[i]) != k {
      FiguresStay(md5, g.tables.log, t.log, k);
    }
  }

  // ---- The first run of a day decides

  lemma NewDayRow(md5: Md5, t: Tables, o: Outcomes, d: int, k: StatKey)
    requires k.date == d && forall j :: j in t.daily ==> j.date != d
    ensures var s1, s2, s3 := o.Seen(t.log, 1), o.Seen(t.log, 2), o.Seen(t.log, 3);
      At(AfterCommit(md5, t, o, DayStart(d), DayStart(d + 1)).daily, k) ==
        if ClicksOn(s1, k) > 0 then
          Some(Stat(ClicksOn(s1, k), |VisitorsOn(md5, s1, k)|, HistOn(s2, Country, k), HistOn(s3, Referer, k)))
        else None
  {
    var s1, s2, s3 := o.Seen(t.log, 1), o.Seen(t.log, 2), o.Seen(t.log, 3);
    RolledUpAt(md5, t.daily, s1, s2, s3, d, d + 1, k);
    CellNew(md5, s1, s2, s3, d, d + 1, k);
  }

  lemma FirstRunRow(md5: Md5, name: DayName, l: nat, g: Books, o: Outcomes, k: StatKey)
    requires NamesDays(name) && DaysInv(name, g) && Orderly(o) && !Idle(name, g, o) && k.date == DayOf(g.now)
    ensures var g' := Step(md5, name, l, g, Scheduled(o));
      var s1, s2, s3 := o.Seen(g.tables.log, 1), o.Seen(g.tables.log, 2), o.Seen(g.tables.log, 3);
      && DaysInv(name, g') && k.date in g'.rolled && g'.tables.log == o.Seen(g.tables.log, 4)
      && At(g'.tables.daily, k) ==
           if ClicksOn(s1, k) > 0 then
             Some(Stat(ClicksOn(s1, k), |VisitorsOn(md5, s1, k)|, HistOn(s2, Country, k), HistOn(s3, Referer, k)))
           else None
  {
    var d, r, e := DayOf(g.now), RuntimeRequest(name, None, g.now), ScheduledEffect(md5, name, g, o);
    NotRolledYet(name, g, o);
    NewDayRow(md5, g.tables, o, d, k);
    ScheduledCommits(name, g, o, r, d);
    CommittedEffect(md5, g.tables, g.marks, g.now, r.startAt, r.endAt, r.requestID, o);
    CommittedRun(md5, name, l, g, o, e);
    NewDayKeepsDays(name, l, g, o, e);
  }

  lemma FrozenRow(md5: Md5, t: Tables, s1: seq<LogRow>, s2: seq<LogRow>, s3: seq<LogRow>, k: StatKey)
    requires s1 <= s2 <= s3 <= t.log
    requires At(t.daily, k) ==
      if ClicksOn(s1, k) > 0 then
        Some(Stat(ClicksOn(s1, k), |VisitorsOn(md5, s1, k)|, HistOn(s2, Country, k), HistOn(s3, Referer, k)))
      else None
    ensures var nothingFollows := forall i :: |s1| <= i < |t.log| ==> KeyOf(t.log[i]) != k;
      (RowRight(md5, t, k) <==> nothingFollows) && (DayClicks(t.daily)(k) == ClicksOn(t.log, k) <==> nothingFollows)
  {
    assert s1 <= t.log && s2 <= t.log;
    assert DayClicks(t.daily)(k) == ClicksOn(s1, k);
    assert RowRight(md5, t, k) ==> DayClicks(t.daily)(k) == ClicksOn(t.log, k);
    GrowthWithoutKey(s1, t.log, k);
    if forall i :: |s1| <= i < |t.log| ==> KeyOf(t.log[i]) != k {
      FiguresStay(md5, s1, t.log, k);
      HistogramStays(s2, t.log, Country, k);
      HistogramStays(s3, t.log, Referer, k);
    }
  }

  /**
   * The freeze, for every link of the day, with or without clicks so far, and whatever is committed
   * during the run: after the day's first run the row is the log's own, at any later time, exactly if
   * no click of that link and day was logged since the run's first statement. The click count alone is
   * then right under the same condition.
   */
  lemma FirstRunDecides(md5: Md5, name: DayName, l: nat, g: Books, o: Outcomes, es: seq<Event>, k: StatKey)
    requires NamesDays(name) && DaysInv(name, g) && Orderly(o) && !Idle(name, g, o) && k.date == DayOf(g.now)
    ensures var s1 := o.Seen(g.tables.log, 1);
      var t := Run(md5, name, l, Step(md5, name, l, g, Scheduled(o)), es).tables;
      var nothingFollows := forall i :: |s1| <= i < |t.log| ==> KeyOf(t.log[i]) != k;
      (RowRight(md5, t, k) <==> nothingFollows) && (DayClicks(t.daily)(k) == ClicksOn(t.log, k) <==> nothingFollows)
  {
    var g' := Step(md5, name, l, g, Scheduled(o));
    var s1, s2, s3 := o.Seen(g.tables.log, 1), o.Seen(g.tables.log, 2), o.Seen(g.tables.log, 3);
    var t := Run(md5, name, l, g', es).tables;
    FirstRunRow(md5, name, l, g, o, k);
    RolledDayStays(md5, name, l, g', es, k);
    SeenGrows(o, g.tables.log);
    FrozenRow(md5, t, s1, s2, s3, k);
  }

  // ---- One link, one day

  lemma RunOfTwo(md5: Md5, name: DayName, l: nat, g: Books, a: Event, b: Event)
    ensures Run(md5, name, l, g, [a, b]) == Step(md5, name, l, Step(md5, name, l, g, a), b)
  {
    var mid := Step(md5, name, l, g, a);
    assert [a, b][1..] == [b] && [b][1..] == [];
    assert Run(md5, name, l, mid, [b]) == Run(md5, name, l, Step(md5, name, l, mid, b), []);
  }

  /** The clock runs and clicks are logged between the runs. */
  lemma BetweenRuns(md5: Md5, name: DayName, l: nat, g: Books, d: nat, rows: seq<LogRow>)
    ensures Step(md5, name, l, g, Wait(d)) == g.(now := g.now + d)
    ensures Step(md5, name, l, g, Logged(rows)) == g.(tables := g.tables.(log := g.tables.log + rows))
  {
  }

  lemma OneRow(row: LogRow, d: int)
    requires DayOf(row.clickedAt) == d && DayStart(d) < row.clickedAt
    ensures ClicksOn([row], StatKey(row.linkId, d)) == 1 && Count([row], LinkSince(row.linkId, DayStart(d))) == 1
  {
    var day, since := OnDay(StatKey(row.linkId, d)), LinkSince(row.linkId, DayStart(d));
    assert row in [row] && day(row) && since(row);
    CountPositive([row], day);
    CountPositive([row], since);
    CountWithin([row], day, day);
    CountWithin([row], since, since);
  }

  lemma RolledOnce(l: nat, d: int, t: Tables, t': Tables, row: LogRow)
    requires l == row.linkId && DayOf(row.clickedAt) == d && DayStart(d) < row.clickedAt
    requires t == Tables([row], map[], map[]) && TablesRolled(d, l, t, ALL_FINE, t')
    ensures SumClicks(t'.daily, l) == 1 && Total(t'.totals, l) == 1 && t'.log == [row]
  {
    QuietSeen(ALL_FINE, [row]);
    OneRow(row, d);
    assert LinkDays(t.daily, l) == {};
  }

  lemma FirstBooks(name: DayName, l: nat, g: Books, e: Effect, row: LogRow)
    requires NamesDays(name) && DaysInv(name, g) && !Idle(name, g, ALL_FINE) && DayRolled(name, l, g, ALL_FINE, e)
    requires l == row.linkId && DayOf(row.clickedAt) == DayOf(g.now) && DayStart(DayOf(g.now)) < row.clickedAt
    requires g.tables == Tables([row], map[], map[])
    ensures var g' := BooksAfter(name, l, g, ALL_FINE, e);
      && SumClicks(g'.tables.daily, l) == 1 && Total(g'.tables.totals, l) == 1
      && DaysInv(name, g') && DayOf(g'.now) in g'.rolled && g'.tables.log == [row]
  {
    RolledOnce(l, DayOf(g.now), g.tables, e.tables, row);
    NewDayKeepsDays(name, l, g, ALL_FINE, e);
  }

  lemma FirstRun(md5: Md5, name: DayName, l: nat, g: Books, row: LogRow)
    requires NamesDays(name) && DaysInv(name, g) && !Idle(name, g, ALL_FINE)
    requires l == row.linkId && DayOf(row.clickedAt) == DayOf(g.now) && DayStart(DayOf(g.now)) < row.clickedAt
    requires g.tables == Tables([row], map[], map[])
    ensures var g' := RunScheduled(md5, name, l, g, ALL_FINE);
      && SumClicks(g'.tables.daily, l) == 1 && Total(g'.tables.totals, l) == 1
      && DaysInv(name, g') && DayOf(g'.now) in g'.rolled && g'.tables.log == [row]
  {
    var e := ScheduledEffect(md5, name, g, ALL_FINE);
    CommittedRun(md5, name, l, g, ALL_FINE, e);
    FirstBooks(name, l, g, e, row);
  }

  lemma FirstHalf(md5: Md5, name: DayName, now: int, row: LogRow)
    requires NamesDays(name) && DayOf(row.clickedAt) == DayOf(now) && DayStart(DayOf(now)) < row.clickedAt
    ensures var l := row.linkId;
      var g := Run(md5, name, l, Opened(now), [Logged([row]), Scheduled(ALL_FINE)]);
      && SumClicks(g.tables.daily, l) == 1 && Total(g.tables.totals, l) == 1
      && DaysInv(name, g) && DayOf(g.now) in g.rolled && g.tables.log == [row]
  {
    var l := row.linkId;
    RunOfTwo(md5, name, l, Opened(now), Logged([row]), Scheduled(ALL_FINE));
    assert [] + [row] == [row];
    FirstRun(md5, name, l, Step(md5, name, l, Opened(now), Logged([row])), row);
  }

  lemma SecondHalf(md5: Md5, name: DayName, l: nat, g: Books, next: LogRow)
    requires DaysInv(name, g) && DayOf(g.now) in g.rolled
    ensures Run(md5, name, l, g, [Logged([next]), Scheduled(ALL_FINE)]).tables
      == g.tables.(log := g.tables.log + [next])
  {
    RunOfTwo(md5, name, l, g, Logged([next]), Scheduled(ALL_FINE));
    RolledDayIsMarked(name, Step(md5, name, l, g, Logged([next])));
  }

  /** A day as it goes: the first click is counted once in both figures, the second in neither. */
  lemma DayAsItGoes(md5: Md5, name: DayName, now: int, row: LogRow, next: LogRow)
    requires NamesDays(name) && DayOf(row.clickedAt) == DayOf(now) && DayStart(DayOf(now)) < row.clickedAt
    ensures var l := row.linkId;
      var g := Run(md5, name, l, Opened(now), [Logged([row]), Scheduled(ALL_FINE)]);
      var g' := Run(md5, name, l, g, [Logged([next]), Scheduled(ALL_FINE)]);
      && SumClicks(g.tables.daily, l) == 1 && Total(g.tables.totals, l) == 1
      && SumClicks(g'.tables.daily, l) == 1 && Total(g'.tables.totals, l) == 1 && g'.tables.log == [row, next]
  {
    FirstHalf(md5, name, now, row);
    SecondHalf(
      md5, name, row.linkId, Run(md5, name, row.linkId, Opened(now), [Logged([row]), Scheduled(ALL_FINE)]), next);
  }
}
