/** The stats responses and their cache, which shares one Redis with the links and the processed marks. */
module StatsCache {
  import opened Options
  import opened Queries
  import opened Sums
  import opened RedisKeys
  import LinkCache

  /** 60 seconds. */
  const STATS_TTL: int := 60000000

  // ---- Requests and their keys

  /** The date of a day number; the calendar itself is left uninterpreted. */
  type Calendar = int -> Date

  /** From 0000-01-01 to 9999-12-31, the dates that the layout 2006-01-02 can read and write. */
  predicate Dated(d: int) {
    -719528 <= d <= 2932896
  }

  ghost predicate IsCalendar(cal: Calendar) {
    && (forall d :: Dated(d) ==> cal(d).Valid())
    && (forall d, e :: Dated(d) && Dated(e) && cal(d) == cal(e) ==> d == e)
  }

  datatype Query = Query(slug: string, start: int, end: int)
  {
    predicate Valid() {
      Dated(start) && Dated(end)
    }
  }

  /** The dates asked for; a missing or unreadable parameter falls back to the last 30 days. */
  function QueryOf(slug: string, now: int, start: Option<int>, end: Option<int>): Query {
    Query(slug,
          match start case Some(d) => d case None => DayOf(now) - 30,
          match end case Some(d) => d case None => DayOf(now))
  }

  function CacheKey(cal: Calendar, q: Query): string {
    StatsKey(q.slug, Format(cal(q.start)), Format(cal(q.end)))
  }

  lemma CacheKeyInjective(cal: Calendar, q: Query, r: Query)
    requires IsCalendar(cal) && q.Valid() && r.Valid() && CacheKey(cal, q) == CacheKey(cal, r)
    ensures q == r
  {
    StatsKeyInjective(q.slug, cal(q.start), cal(q.end), r.slug, cal(r.start), cal(r.end));
  }

  /** A default request and the request that names the same two days share one cache entry, all day long. */
  lemma DefaultsShareTheKey(cal: Calendar, slug: string, now: int, now': int, start: Option<int>, end: Option<int>)
    requires IsCalendar(cal)
    requires QueryOf(slug, now, start, end).Valid() && QueryOf(slug, now', None, None).Valid()
    ensures CacheKey(cal, QueryOf(slug, now, start, end)) == CacheKey(cal, QueryOf(slug, now', None, None)) <==>
      && (if start.Some? then start.value == DayOf(now') - 30 else DayOf(now) == DayOf(now'))
      && (if end.Some? then end.value == DayOf(now') else DayOf(now) == DayOf(now'))
  {
    var q, r := QueryOf(slug, now, start, end), QueryOf(slug, now', None, None);
    if CacheKey(cal, q) == CacheKey(cal, r) {
      CacheKeyInjective(cal, q, r);
    }
  }

  /** Keys that other parts of the system write. */
  ghost predicate OtherFamily(key: string) {
    || (exists slug :: key == LinkKey(slug))
    || (exists day: Date :: key == ProcessedKey(ScheduledRequest(day)))
    || key == STREAM_KEY
  }

  lemma NotOurKey(cal: Calendar, q: Query, key: string)
    requires OtherFamily(key)
    ensures key != CacheKey(cal, q)
  {
    if slug :| key == LinkKey(slug) {
      FamiliesAreDisjoint(q.slug, slug, cal(q.start), cal(q.end), Date(0, 1, 1));
    } else if day: Date :| key == ProcessedKey(ScheduledRequest(day)) {
      FamiliesAreDisjoint(q.slug, q.slug, cal(q.start), cal(q.end), day);
    } else {
      FamiliesAreDisjoint(q.slug, q.slug, cal(q.start), cal(q.end), Date(0, 1, 1));
    }
  }

  // ---- Responses

  datatype DailyRow = DailyRow(date: int, stat: Stat)

  /** GetDailyStatsByLink: the rows of a link from `start` to `end`, both included, latest first. */
  function RowsBetween(daily: map<StatKey, Stat>, l: nat, start: int, end: int): seq<DailyRow>
    decreases end - start
  {
    if end < start then []
    else
      (if StatKey(l, end) in daily then [DailyRow(end, daily[StatKey(l, end)])] else [])
        + RowsBetween(daily, l, start, end - 1)
  }

  lemma {:induction false} RowIsListed(daily: map<StatKey, Stat>, l: nat, start: int, end: int, row: DailyRow)
    ensures row in RowsBetween(daily, l, start, end) <==>
      start <= row.date <= end && At(daily, StatKey(l, row.date)) == Some(row.stat)
    decreases end - start
  {
    if start <= end {
      RowIsListed(daily, l, start, end - 1, row);
    }
  }

  lemma {:induction false} LatestFirst(daily: map<StatKey, Stat>, l: nat, start: int, end: int, i: nat, j: nat)
    requires i < j < |RowsBetween(daily, l, start, end)|
    ensures var rows := RowsBetween(daily, l, start, end);
      rows[i].date > rows[j].date
    decreases end - start
  {
    var rest := RowsBetween(daily, l, start, end - 1);
    if StatKey(l, end) !in daily {
      LatestFirst(daily, l, start, end - 1, i, j);
    } else if i > 0 {
      LatestFirst(daily, l, start, end - 1, i - 1, j - 1);
    } else {
      RowIsListed(daily, l, start, end - 1, rest[j - 1]);
    }
  }

  datatype DayResponse = DayResponse(
    date: string, clicks: nat, visitors: nat, countries: map<string, nat>, referers: map<string, nat>)

  datatype Response = Response(slug: string, totalClicks: nat, totalVisitors: nat, daily: seq<DayResponse>)

  function DayOfRow(cal: Calendar, row: DailyRow): DayResponse {
    DayResponse(Format(cal(row.date)), row.stat.clicks, row.stat.visitors, row.stat.countries, row.stat.referers)
  }

  function DaysOfRows(cal: Calendar, rows: seq<DailyRow>): seq<DayResponse> {
    seq(|rows|, i requires 0 <= i < |rows| => DayOfRow(cal, rows[i]))
  }

  /** The response for link `id` when the summary reads `d1` and the days are read from `d2`. */
  ghost function Computed(cal: Calendar, q: Query, id: nat, d1: map<StatKey, Stat>, d2: map<StatKey, Stat>): Response {
    Response(q.slug, SumClicks(d1, id), SumVisitors(d1, id), DaysOfRows(cal, RowsBetween(d2, id, q.start, q.end)))
  }

  /** `day` shows the row of link `id` for `date`. */
  predicate Shows(cal: Calendar, daily: map<StatKey, Stat>, id: nat, date: int, day: DayResponse) {
    && StatKey(id, date) in daily
    && day.date == Format(cal(date))
    && Stat(day.clicks, day.visitors, day.countries, day.referers) == daily[StatKey(id, date)]
  }

  /** A response lists exactly the link's days in the range asked for, each with the figures of its row. */
  lemma ResponseListsRange(
      cal: Calendar, q: Query, id: nat, d1: map<StatKey, Stat>, d2: map<StatKey, Stat>, day: DayResponse)
    ensures day in Computed(cal, q, id, d1, d2).daily <==>
      exists date :: q.start <= date <= q.end && Shows(cal, d2, id, date, day)
  {
    var rows := RowsBetween(d2, id, q.start, q.end);
    var days := DaysOfRows(cal, rows);
    if day in days {
      var n :| 0 <= n < |rows| && day == DayOfRow(cal, rows[n]);
      RowIsListed(d2, id, q.start, q.end, rows[n]);
      assert Shows(cal, d2, id, rows[n].date, day);
    }
    if date :| q.start <= date <= q.end && Shows(cal, d2, id, date, day) {
      var row := DailyRow(date, d2[StatKey(id, date)]);
      RowIsListed(d2, id, q.start, q.end, row);
      var n :| 0 <= n < |rows| && rows[n] == row;
      assert days[n] == day;
    }
  }

  /** The days of a response come latest first. */
  lemma ResponseLatestFirst(
      cal: Calendar, q: Query, id: nat, d1: map<StatKey, Stat>, d2: map<StatKey, Stat>, i: nat, j: nat)
    requires i < j < |Computed(cal, q, id, d1, d2).daily|
    ensures var days := Computed(cal, q, id, d1, d2).daily;
      exists late, early ::
        late > early && Shows(cal, d2, id, late, days[i]) && Shows(cal, d2, id, early, days[j])
  {
    var rows := RowsBetween(d2, id, q.start, q.end);
    LatestFirst(d2, id, q.start, q.end, i, j);
    RowIsListed(d2, id, q.start, q.end, rows[i]);
    RowIsListed(d2, id, q.start, q.end, rows[j]);
    var days := Computed(cal, q, id, d1, d2).daily;
    assert Shows(cal, d2, id, rows[i].date, days[i]) && Shows(cal, d2, id, rows[j].date, days[j]);
  }

  /** The slug is the one asked for, and the totals are the sums of the two columns over the link's rows. */
  lemma ResponseTotals(cal: Calendar, q: Query, id: nat, d1: map<StatKey, Stat>, d2: map<StatKey, Stat>)
    ensures var r, rows := Computed(cal, q, id, d1, d2), set k | k in d1 && k.linkId == id;
      && r.slug == q.slug
      && r.totalClicks == SumOver(rows, (k: StatKey) => if k in d1 then d1[k].clicks else 0)
      && r.totalVisitors == SumOver(rows, (k: StatKey) => if k in d1 then d1[k].visitors else 0)
  {
    SummaryMeaning(d1, id);
  }

  function VisitorsOfDays(days: seq<DayResponse>): nat {
    if days == [] then 0 else days[0].visitors + VisitorsOfDays(days[1..])
  }

  function ClicksOfDays(days: seq<DayResponse>): nat {
    if days == [] then 0 else days[0].clicks + ClicksOfDays(days[1..])
  }

  lemma ClicksOfFirst(cal: Calendar, row: DailyRow, rest: seq<DailyRow>)
    ensures ClicksOfDays(DaysOfRows(cal, [row] + rest)) == row.stat.clicks + ClicksOfDays(DaysOfRows(cal, rest))
  {
    assert DaysOfRows(cal, [row] + rest)[1..] == DaysOfRows(cal, rest);
  }

  function DaysIn(daily: map<StatKey, Stat>, l: nat, start: int, end: int): set<StatKey> {
    set k | k in daily && k.linkId == l && start <= k.date <= end
  }

  lemma RangeGrows(daily: map<StatKey, Stat>, f: StatKey -> nat, l: nat, start: int, end: int)
    requires start <= end && forall k :: k !in daily ==> f(k) == 0
    ensures SumOver(DaysIn(daily, l, start, end), f)
      == SumOver(DaysIn(daily, l, start, end - 1), f) + f(StatKey(l, end))
  {
    var now, before, key := DaysIn(daily, l, start, end), DaysIn(daily, l, start, end - 1), StatKey(l, end);
    assert now - {key} == before;
    if key in daily {
      SumTake(now, f, key);
    } else {
      assert now == before;
    }
  }

  lemma {:induction false} ClicksOfRange(cal: Calendar, daily: map<StatKey, Stat>, l: nat, start: int, end: int)
    ensures ClicksOfDays(DaysOfRows(cal, RowsBetween(daily, l, start, end)))
      == SumOver(DaysIn(daily, l, start, end), DayClicks(daily))
    decreases end - start
  {
    if end < start {
      assert DaysIn(daily, l, start, end) == {};
    } else {
      var rest, key := RowsBetween(daily, l, start, end - 1), StatKey(l, end);
      ClicksOfRange(cal, daily, l, start, end - 1);
      RangeGrows(daily, DayClicks(daily), l, start, end);
      if key in daily {
        ClicksOfFirst(cal, DailyRow(end, daily[key]), rest);
      } else {
        assert RowsBetween(daily, l, start, end) == rest;
      }
    }
  }

  lemma VisitorsOfFirst(cal: Calendar, row: DailyRow, rest: seq<DailyRow>)
    ensures VisitorsOfDays(DaysOfRows(cal, [row] + rest)) == row.stat.visitors + VisitorsOfDays(DaysOfRows(cal, rest))
  {
    assert DaysOfRows(cal, [row] + rest)[1..] == DaysOfRows(cal, rest);
  }

  lemma {:induction false} VisitorsOfRange(cal: Calendar, daily: map<StatKey, Stat>, l: nat, start: int, end: int)
    ensures VisitorsOfDays(DaysOfRows(cal, RowsBetween(daily, l, start, end)))
      == SumOver(DaysIn(daily, l, start, end), DayVisitors(daily))
    decreases end - start
  {
    if end < start {
      assert DaysIn(daily, l, start, end) == {};
    } else {
      var rest, key := RowsBetween(daily, l, start, end - 1), StatKey(l, end);
      VisitorsOfRange(cal, daily, l, start, end - 1);
      RangeGrows(daily, DayVisitors(daily), l, start, end);
      if key in daily {
        VisitorsOfFirst(cal, DailyRow(end, daily[key]), rest);
      } else {
        assert RowsBetween(daily, l, start, end) == rest;
      }
    }
  }

  /**
   * The summary of a response covers all days, whatever range was asked for: in one snapshot it is at
   * least the sum of the days listed, and equal to it exactly if the link has no clicks elsewhere.
   */
  lemma SummaryIgnoresRange(cal: Calendar, q: Query, id: nat, daily: map<StatKey, Stat>)
    ensures var r := Computed(cal, q, id, daily, daily);
      && r.totalClicks >= ClicksOfDays(r.daily)
      && (r.totalClicks == ClicksOfDays(r.daily) <==>
          forall k :: k in daily && k.linkId == id && !(q.start <= k.date <= q.end) ==> daily[k].clicks == 0)
  {
    var inside, all := DaysIn(daily, id, q.start, q.end), LinkDays(daily, id);
    ClicksOfRange(cal, daily, id, q.start, q.end);
    SumSplit(inside, all - inside, DayClicks(daily));
    assert inside + (all - inside) == all;
    SumPositive(all - inside, DayClicks(daily));
    assert forall k :: k in all - inside <==> k in daily && k.linkId == id && !(q.start <= k.date <= q.end);
  }

  /** The total of visitors covers all days likewise. */
  lemma VisitorsIgnoreRange(cal: Calendar, q: Query, id: nat, daily: map<StatKey, Stat>)
    ensures var r := Computed(cal, q, id, daily, daily);
      && r.totalVisitors >= VisitorsOfDays(r.daily)
      && (r.totalVisitors == VisitorsOfDays(r.daily) <==>
          forall k :: k in daily && k.linkId == id && !(q.start <= k.date <= q.end) ==> daily[k].visitors == 0)
  {
    var inside, all := DaysIn(daily, id, q.start, q.end), LinkDays(daily, id);
    VisitorsOfRange(cal, daily, id, q.start, q.end);
    SumSplit(inside, all - inside, DayVisitors(daily));
    assert inside + (all - inside) == all;
    SumPositive(all - inside, DayVisitors(daily));
    assert forall k :: k in all - inside <==> k in daily && k.linkId == id && !(q.start <= k.date <= q.end);
  }

  /** The key of a request; the steps need of it only that it tells requests and families apart. */
  type Keys = Query -> string

  ghost predicate KeysApart(keys: Keys) {
    && (forall q: Query, r: Query :: q.Valid() && r.Valid() && keys(q) == keys(r) ==> q == r)
    && (forall q: Query, key :: OtherFamily(key) ==> key != keys(q))
  }

  function CacheKeys(cal: Calendar): Keys {
    (q: Query) => CacheKey(cal, q)
  }

  lemma CacheKeysApart(cal: Calendar)
    requires IsCalendar(cal)
    ensures KeysApart(CacheKeys(cal))
  {
    forall q: Query, r: Query | q.Valid() && r.Valid() && CacheKeys(cal)(q) == CacheKeys(cal)(r) ensures q == r {
      CacheKeyInjective(cal, q, r);
    }
    forall q: Query, key | OtherFamily(key) ensures key != CacheKeys(cal)(q) {
      NotOurKey(cal, q, key);
    }
  }

  // ---- Requests as steps, over a changing database and a shared Redis

  datatype Db = Db(links: LinkCache.Links, daily: map<StatKey, Stat>)

  /** The values of the other families are of no interest here. */
  datatype Value = Stats(response: Response) | Other

  datatype Entry = Entry(value: Value, until: int)

  /** A request after its cache miss; the indices say which database states it has read so far. */
  datatype Handler =
    | Missed(q: Query, from: nat)
    | Found(q: Query, from: nat, i: nat, id: nat)
    | Summed(q: Query, from: nat, i: nat, id: nat, j: nat, clicks: nat, visitors: nat)
    | Ready(q: Query, from: nat, response: Response)

  /** A response that a miss after database state `from` computed, and that Redis took at `time`. */
  datatype Write = Write(q: Query, from: nat, response: Response, time: int)

  /** A response as served; `miss` is the database state its miss began at, None for a cache hit. */
  datatype Served = Served(q: Query, response: Response, time: int, miss: Option<nat>)

  datatype State = State(
    dbs: seq<Db>, redis: map<string, Entry>, handlers: map<nat, Handler>, writes: seq<Write>, served: seq<Served>,
    now: int)
  {
    predicate Hit(key: string) {
      key in redis && now < redis[key].until && redis[key].value.Stats?
    }
  }

  datatype Event =
    | Wait(time: nat)
    | Commit(db: Db)
    | Get(h: nat, q: Query, readFails: bool)
    | Read(h: nat, dbFails: bool)
    | Set(h: nat, applied: bool)
    | OtherSet(key: string, until: int)
    | OtherDel(key: string)
    | Evict(key: string)
    | Crash(h: nat)

  /** The id GetLinkBySlug finds, if any. */
  ghost function FindId(links: LinkCache.Links, s: string): Option<nat> {
    if exists id :: LinkCache.LiveOwner(links, id, s) then
      var id :| LinkCache.LiveOwner(links, id, s);
      Some(id)
    else None
  }

  /** The next of the three queries, answered by database state `n`. */
  ghost function Advanced(cal: Calendar, db: Db, n: nat, p: Handler): Option<Handler> {
    match p
    case Missed(q, from) =>
      var id := FindId(db.links, q.slug);
      if id.Some? then Some(Found(q, from, n, id.value)) else None
    case Found(q, from, i, id) => Some(Summed(q, from, i, id, n, SumClicks(db.daily, id), SumVisitors(db.daily, id)))
    case Summed(q, from, i, id, j, clicks, visitors) =>
      Some(Ready(q, from,
                 Response(q.slug, clicks, visitors, DaysOfRows(cal, RowsBetween(db.daily, id, q.start, q.end)))))
    case Ready(_, _, _) => Some(p)
  }

  /** The last step of a miss: SET with a time to live, which may fail, and the answer. */
  function Finished(keys: Keys, st: State, h: nat, p: Handler, applied: bool): State
    requires p.Ready?
  {
    st.(redis := if applied then st.redis[keys(p.q) := Entry(Stats(p.response), st.now + STATS_TTL)]
                 else st.redis,
        writes := if applied then st.writes + [Write(p.q, p.from, p.response, st.now)] else st.writes,
        served := st.served + [Served(p.q, p.response, st.now, Some(p.from))],
        handlers := st.handlers - {h})
  }

  ghost function Step(cal: Calendar, keys: Keys, st: State, e: Event): State {
    match e
    case Wait(d) => st.(now := st.now + d)
    case Commit(db) => st.(dbs := st.dbs + [db])
    case Get(h, q, readFails) =>
      if h in st.handlers || !q.Valid() || st.dbs == [] then st
      else if !readFails && st.Hit(keys(q)) then
        st.(served := st.served + [Served(q, st.redis[keys(q)].value.response, st.now, None)])
      else st.(handlers := st.handlers[h := Missed(q, |st.dbs| - 1)])
    case Read(h, dbFails) =>
      if h !in st.handlers || st.dbs == [] then st
      else
        var n := |st.dbs| - 1;
        var p := if dbFails then None else Advanced(cal, st.dbs[n], n, st.handlers[h]);
        st.(handlers := if p.Some? then st.handlers[h := p.value] else st.handlers - {h})
    case Set(h, applied) =>
      if h in st.handlers && st.handlers[h].Ready? then Finished(keys, st, h, st.handlers[h], applied) else st
    case OtherSet(key, until) =>
      if OtherFamily(key) then st.(redis := st.redis[key := Entry(Other, until)]) else st
    case OtherDel(key) => if OtherFamily(key) then st.(redis := st.redis - {key}) else st
    case Evict(key) => st.(redis := st.redis - {key})
    case Crash(h) => st.(handlers := st.handlers - {h})
  }

  ghost function RunAll(cal: Calendar, keys: Keys, st: State, es: seq<Event>): State
    decreases |es|
  {
    if es == [] then st else RunAll(cal, keys, Step(cal, keys, st, es[0]), es[1..])
  }

  function Opened(db: Db, now: int): State {
    State([db], map[], map[], [], [], now)
  }

  // ---- The invariant

  ghost predicate Snapshots(
      cal: Calendar, dbs: seq<Db>, q: Query, from: nat, r: Response, i: nat, j: nat, k: nat, id: nat) {
    && from <= i <= j <= k < |dbs|
    && LinkCache.LiveOwner(dbs[i].links, id, q.slug)
    && r == Computed(cal, q, id, dbs[j].daily, dbs[k].daily)
  }

  /** The response was read from database states no older than `from`, in the order of the queries. */
  ghost predicate ComputedSince(cal: Calendar, dbs: seq<Db>, q: Query, from: nat, r: Response) {
    exists i, j, k, id :: Snapshots(cal, dbs, q, from, r, i, j, k, id)
  }

  ghost predicate HandlerRight(cal: Calendar, dbs: seq<Db>, p: Handler) {
    && p.q.Valid()
    && match p
       case Missed(_, from) => from < |dbs|
       case Found(q, from, i, id) => from <= i < |dbs| && LinkCache.LiveOwner(dbs[i].links, id, q.slug)
       case Summed(q, from, i, id, j, clicks, visitors) =>
         && from <= i <= j < |dbs| && LinkCache.LiveOwner(dbs[i].links, id, q.slug)
         && clicks == SumClicks(dbs[j].daily, id) && visitors == SumVisitors(dbs[j].daily, id)
       case Ready(q, from, r) => ComputedSince(cal, dbs, q, from, r)
  }

  predicate LastWrite(writes: seq<Write>, q: Query, w: nat) {
    w < |writes| && writes[w].q == q && forall v :: w < v < |writes| ==> writes[v].q != q
  }

  ghost predicate HandlersRight(cal: Calendar, st: State) {
    forall h :: h in st.handlers ==> HandlerRight(cal, st.dbs, st.handlers[h])
  }

  ghost predicate WritesRight(cal: Calendar, st: State) {
    forall w :: 0 <= w < |st.writes| ==>
      && st.writes[w].q.Valid() && st.writes[w].time <= st.now
      && ComputedSince(cal, st.dbs, st.writes[w].q, st.writes[w].from, st.writes[w].response)
  }

  ghost predicate EntryRight(writes: seq<Write>, q: Query, entry: Entry) {
    entry.value.Stats? ==>
      exists w: nat :: LastWrite(writes, q, w) && entry == Entry(Stats(writes[w].response), writes[w].time + STATS_TTL)
  }

  ghost predicate RedisRight(keys: Keys, st: State) {
    forall q: Query :: q.Valid() && keys(q) in st.redis ==> EntryRight(st.writes, q, st.redis[keys(q)])
  }

  predicate WrittenBefore(writes: seq<Write>, s: Served, w: nat) {
    w < |writes| && writes[w].q == s.q && writes[w].response == s.response
      && writes[w].time <= s.time < writes[w].time + STATS_TTL
  }

  ghost predicate HitRight(writes: seq<Write>, s: Served) {
    s.miss.None? ==> exists w: nat :: WrittenBefore(writes, s, w)
  }

  ghost predicate MissRight(cal: Calendar, dbs: seq<Db>, s: Served) {
    s.miss.Some? ==> ComputedSince(cal, dbs, s.q, s.miss.value, s.response)
  }

  ghost predicate ServedRight(cal: Calendar, st: State) {
    forall n :: 0 <= n < |st.served| ==> HitRight(st.writes, st.served[n]) && MissRight(cal, st.dbs, st.served[n])
  }

  ghost predicate Inv(cal: Calendar, keys: Keys, st: State) {
    HandlersRight(cal, st) && WritesRight(cal, st) && RedisRight(keys, st) && ServedRight(cal, st)
  }

  lemma SnapshotsStay(cal: Calendar, dbs: seq<Db>, dbs': seq<Db>, q: Query, from: nat, r: Response)
    requires dbs <= dbs' && ComputedSince(cal, dbs, q, from, r)
    ensures ComputedSince(cal, dbs', q, from, r)
  {
    var i, j, k, id :| Snapshots(cal, dbs, q, from, r, i, j, k, id);
    assert Snapshots(cal, dbs', q, from, r, i, j, k, id);
  }

  lemma HandlerStays(cal: Calendar, dbs: seq<Db>, dbs': seq<Db>, p: Handler)
    requires dbs <= dbs' && HandlerRight(cal, dbs, p)
    ensures HandlerRight(cal, dbs', p)
  {
    if p.Ready? {
      SnapshotsStay(cal, dbs, dbs', p.q, p.from, p.response);
    }
  }

  lemma AdvanceKeeps(cal: Calendar, dbs: seq<Db>, p: Handler)
    requires dbs != [] && HandlerRight(cal, dbs, p)
    ensures var p' := Advanced(cal, dbs[|dbs| - 1], |dbs| - 1, p);
      p'.Some? ==> HandlerRight(cal, dbs, p'.value)
  {
    var n := |dbs| - 1;
    if p.Summed? {
      var r := Advanced(cal, dbs[n], n, p).value.response;
      assert Snapshots(cal, dbs, p.q, p.from, r, p.i, p.j, n, p.id);
    }
  }

  lemma ReadKeepsHandlers(cal: Calendar, keys: Keys, st: State, e: Event)
    requires HandlersRight(cal, st) && e.Read?
    ensures HandlersRight(cal, Step(cal, keys, st, e))
  {
    if e.h in st.handlers && st.dbs != [] {
      AdvanceKeeps(cal, st.dbs, st.handlers[e.h]);
    }
  }

  lemma OthersKeepHandlers(cal: Calendar, keys: Keys, st: State, e: Event)
    requires HandlersRight(cal, st) && !e.Read?
    ensures HandlersRight(cal, Step(cal, keys, st, e))
  {
    var st' := Step(cal, keys, st, e);
    forall h | h in st'.handlers ensures HandlerRight(cal, st'.dbs, st'.handlers[h]) {
      if h in st.handlers {
        HandlerStays(cal, st.dbs, st'.dbs, st.handlers[h]);
      }
    }
  }

  lemma SetKeepsWrites(cal: Calendar, keys: Keys, st: State, e: Event)
    requires HandlersRight(cal, st) && WritesRight(cal, st) && e.Set?
    ensures WritesRight(cal, Step(cal, keys, st, e))
  {
    if e.h in st.handlers && st.handlers[e.h].Ready? {
      assert HandlerRight(cal, st.dbs, st.handlers[e.h]);
    }
  }

  lemma OthersKeepWrites(cal: Calendar, keys: Keys, st: State, e: Event)
    requires WritesRight(cal, st) && !e.Set?
    ensures WritesRight(cal, Step(cal, keys, st, e))
  {
    var dbs := Step(cal, keys, st, e).dbs;
    forall w | 0 <= w < |st.writes|
      ensures ComputedSince(cal, dbs, st.writes[w].q, st.writes[w].from, st.writes[w].response)
    {
      SnapshotsStay(cal, st.dbs, dbs, st.writes[w].q, st.writes[w].from, st.writes[w].response);
    }
  }

  lemma EntryStays(writes: seq<Write>, write: Write, q: Query, entry: Entry)
    requires EntryRight(writes, q, entry) && write.q != q
    ensures EntryRight(writes + [write], q, entry)
  {
    if entry.value.Stats? {
      var w: nat :| LastWrite(writes, q, w) && entry == Entry(Stats(writes[w].response), writes[w].time + STATS_TTL);
      assert LastWrite(writes + [write], q, w);
    }
  }

  lemma NewEntry(writes: seq<Write>, write: Write)
    ensures EntryRight(writes + [write], write.q, Entry(Stats(write.response), write.time + STATS_TTL))
  {
    assert LastWrite(writes + [write], write.q, |writes|);
  }

  lemma StepKeepsRedis(cal: Calendar, keys: Keys, st: State, e: Event)
    requires KeysApart(keys) && Inv(cal, keys, st)
    ensures RedisRight(keys, Step(cal, keys, st, e))
  {
    var st' := Step(cal, keys, st, e);
    forall q: Query | q.Valid() && keys(q) in st'.redis
      ensures EntryRight(st'.writes, q, st'.redis[keys(q)])
    {
      if st'.writes != st.writes {
        var p := st.handlers[e.h];
        var write := Write(p.q, p.from, p.response, st.now);
        assert HandlerRight(cal, st.dbs, p);
        if p.q == q {
          NewEntry(st.writes, write);
        } else {
          if keys(q) == keys(p.q) {
            assert false;
          }
          EntryStays(st.writes, write, q, st.redis[keys(q)]);
        }
      }
    }
  }

  lemma HitIsWritten(cal: Calendar, keys: Keys, st: State, q: Query)
    requires Inv(cal, keys, st) && q.Valid() && st.Hit(keys(q))
    ensures HitRight(st.writes, Served(q, st.redis[keys(q)].value.response, st.now, None))
  {
    assert EntryRight(st.writes, q, st.redis[keys(q)]);
    var w: nat :| LastWrite(st.writes, q, w)
      && st.redis[keys(q)] == Entry(Stats(st.writes[w].response), st.writes[w].time + STATS_TTL);
    assert WrittenBefore(st.writes, Served(q, st.redis[keys(q)].value.response, st.now, None), w);
  }

  lemma ServedStays(cal: Calendar, st: State, st': State, s: Served)
    requires st.writes <= st'.writes && st.dbs <= st'.dbs
    requires HitRight(st.writes, s) && MissRight(cal, st.dbs, s)
    ensures HitRight(st'.writes, s) && MissRight(cal, st'.dbs, s)
  {
    if s.miss.None? {
      var w: nat :| WrittenBefore(st.writes, s, w);
      assert WrittenBefore(st'.writes, s, w);
    } else {
      SnapshotsStay(cal, st.dbs, st'.dbs, s.q, s.miss.value, s.response);
    }
  }

  lemma GetKeepsServed(cal: Calendar, keys: Keys, st: State, e: Event)
    requires Inv(cal, keys, st) && e.Get?
    ensures ServedRight(cal, Step(cal, keys, st, e))
  {
    if e.q.Valid() && st.Hit(keys(e.q)) {
      HitIsWritten(cal, keys, st, e.q);
    }
  }

  lemma OthersKeepServed(cal: Calendar, keys: Keys, st: State, e: Event)
    requires HandlersRight(cal, st) && ServedRight(cal, st) && !e.Get?
    ensures ServedRight(cal, Step(cal, keys, st, e))
  {
    var st' := Step(cal, keys, st, e);
    forall n | 0 <= n < |st'.served|
      ensures HitRight(st'.writes, st'.served[n]) && MissRight(cal, st'.dbs, st'.served[n])
    {
      if n < |st.served| {
        ServedStays(cal, st, st', st.served[n]);
      } else {
        var p := st.handlers[e.h];
        assert ComputedSince(cal, st.dbs, p.q, p.from, p.response);
      }
    }
  }

  lemma StepKeeps(cal: Calendar, keys: Keys, st: State, e: Event)
    requires KeysApart(keys) && Inv(cal, keys, st)
    ensures Inv(cal, keys, Step(cal, keys, st, e))
  {
    if e.Read? {
      ReadKeepsHandlers(cal, keys, st, e);
    } else {
      OthersKeepHandlers(cal, keys, st, e);
    }
    if e.Set? {
      SetKeepsWrites(cal, keys, st, e);
    } else {
      OthersKeepWrites(cal, keys, st, e);
    }
    StepKeepsRedis(cal, keys, st, e);
    if e.Get? {
      GetKeepsServed(cal, keys, st, e);
    } else {
      OthersKeepServed(cal, keys, st, e);
    }
  }

  lemma {:induction false} RunKeeps(cal: Calendar, keys: Keys, st: State, es: seq<Event>)
    requires KeysApart(keys) && Inv(cal, keys, st)
    ensures Inv(cal, keys, RunAll(cal, keys, st, es))
    decreases |es|
  {
    if es != [] {
      StepKeeps(cal, keys, st, es[0]);
      RunKeeps(cal, keys, Step(cal, keys, st, es[0]), es[1..]);
    }
  }

  // ---- Lifetimes and faults

  /** A written response is a hit for 60 seconds, and no other key is touched. */
  lemma WrittenForSixtySeconds(cal: Calendar, keys: Keys, st: State, h: nat, d: nat)
    requires h in st.handlers && st.handlers[h].Ready?
    ensures var p, st' := st.handlers[h], Step(cal, keys, Step(cal, keys, st, Set(h, true)), Wait(d));
      && (st'.Hit(keys(p.q)) <==> d < 60 * 1000000)
      && keys(p.q) in st'.redis && st'.redis[keys(p.q)].value == Stats(p.response)
      && forall key :: key != keys(p.q) ==>
           (key in st'.redis <==> key in st.redis) && (key in st'.redis ==> st'.redis[key] == st.redis[key])
  {
  }

  /** The other families write and delete keys of their own. */
  lemma OthersWrite(cal: Calendar, keys: Keys, st: State, slug: string, day: Date, until: int)
    ensures forall key :: key in {LinkKey(slug), ProcessedKey(ScheduledRequest(day)), STREAM_KEY} ==>
      && Step(cal, keys, st, OtherSet(key, until)).redis == st.redis[key := Entry(Other, until)]
      && Step(cal, keys, st, OtherDel(key)).redis == st.redis - {key}
  {
  }

  /** An eviction takes one key, a crash one request, and a commit is what is read from then on. */
  lemma OutsideSteps(cal: Calendar, keys: Keys, st: State, key: string, h: nat, db: Db)
    ensures Step(cal, keys, st, Evict(key)) == st.(redis := st.redis - {key})
    ensures Step(cal, keys, st, Crash(h)) == st.(handlers := st.handlers - {h})
    ensures Step(cal, keys, st, Commit(db)).dbs == st.dbs + [db]
  {
  }

  // ---- The theorems

  /** Write `w` is the last one for `q`, less than 60 seconds old, and was computed after its own miss. */
  ghost predicate FreshWrite(cal: Calendar, st: State, q: Query, r: Response, w: nat) {
    && LastWrite(st.writes, q, w)
    && st.writes[w].response == r
    && st.writes[w].time <= st.now < st.writes[w].time + STATS_TTL
    && ComputedSince(cal, st.dbs, q, st.writes[w].from, r)
  }

  lemma HitIsFresh(cal: Calendar, keys: Keys, st: State, q: Query) returns (w: nat)
    requires Inv(cal, keys, st) && q.Valid() && st.Hit(keys(q))
    ensures FreshWrite(cal, st, q, st.redis[keys(q)].value.response, w)
  {
    var entry := st.redis[keys(q)];
    assert EntryRight(st.writes, q, entry);
    w :| LastWrite(st.writes, q, w) && entry == Entry(Stats(st.writes[w].response), st.writes[w].time + STATS_TTL);
  }

  /**
   * On every run, whatever the other families write or delete and however the database changes
   * meanwhile: a cache hit is the last response that a miss wrote for the same slug and dates, written
   * less than 60 seconds ago, and computed from database states no older than that miss.
   */
  lemma HitsAreFresh(cal: Calendar, db: Db, start: int, es: seq<Event>, q: Query) returns (w: nat)
    requires IsCalendar(cal) && q.Valid()
    requires RunAll(cal, CacheKeys(cal), Opened(db, start), es).Hit(CacheKeys(cal)(q))
    ensures var st := RunAll(cal, CacheKeys(cal), Opened(db, start), es);
      FreshWrite(cal, st, q, st.redis[CacheKeys(cal)(q)].value.response, w)
  {
    var keys := CacheKeys(cal);
    CacheKeysApart(cal);
    RunKeeps(cal, keys, Opened(db, start), es);
    w := HitIsFresh(cal, keys, RunAll(cal, keys, Opened(db, start), es), q);
  }

  /** `s` repeats write `w`, less than 60 seconds old, whose response was computed after its own miss. */
  ghost predicate Repeats(cal: Calendar, st: State, s: Served, w: nat) {
    WrittenBefore(st.writes, s, w) && ComputedSince(cal, st.dbs, s.q, st.writes[w].from, s.response)
  }

  lemma HitRepeats(cal: Calendar, st: State, s: Served)
    requires WritesRight(cal, st) && HitRight(st.writes, s) && s.miss.None?
    ensures exists w: nat :: Repeats(cal, st, s, w)
  {
    var w: nat :| WrittenBefore(st.writes, s, w);
    assert Repeats(cal, st, s, w);
  }

  /**
   * Every response ever served was computed for exactly its request: that of a miss from database
   * states no older than the one the miss began at, that of a hit as the repetition of a miss's write
   * less than 60 seconds old.
   */
  lemma ServedResponses(cal: Calendar, db: Db, start: int, es: seq<Event>, n: nat)
    requires IsCalendar(cal) && n < |RunAll(cal, CacheKeys(cal), Opened(db, start), es).served|
    ensures var st := RunAll(cal, CacheKeys(cal), Opened(db, start), es);
      var s := st.served[n];
      match s.miss
      case Some(from) => ComputedSince(cal, st.dbs, s.q, from, s.response)
      case None => exists w: nat :: Repeats(cal, st, s, w)
  {
    var st := RunAll(cal, CacheKeys(cal), Opened(db, start), es);
    CacheKeysApart(cal);
    RunKeeps(cal, CacheKeys(cal), Opened(db, start), es);
    if st.served[n].miss.None? {
      HitRepeats(cal, st, st.served[n]);
    }
  }

  /** While the database stands still from a miss on, its response is what a database-only read gives now. */
  lemma QuietResponseIsCurrent(cal: Calendar, st: State, q: Query, from: nat, r: Response)
    requires ComputedSince(cal, st.dbs, q, from, r)
    requires forall n :: from <= n < |st.dbs| ==> st.dbs[n] == st.dbs[|st.dbs| - 1]
    requires LinkCache.OneOwner(st.dbs[|st.dbs| - 1].links)
    ensures var db := st.dbs[|st.dbs| - 1];
      var id := FindId(db.links, q.slug);
      id.Some? && r == Computed(cal, q, id.value, db.daily, db.daily)
  {
    var i, j, k, id :| Snapshots(cal, st.dbs, q, from, r, i, j, k, id);
    var db := st.dbs[|st.dbs| - 1];
    assert LinkCache.LiveOwner(db.links, id, q.slug);
    var found := FindId(db.links, q.slug).value;
    assert LinkCache.Same(db.links[found].slug, db.links[id].slug);
  }
}
