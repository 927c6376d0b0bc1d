/** The stats handler itself, one request at a time, against the steps of the stats cache. */
module StatsHandlers {
  import opened Options
  import opened Queries
  import opened Sums
  import opened StatsCache
  import LinkCache

  /** What the database alone answers. */
  ghost function Fresh(cal: Calendar, db: Db, q: Query): Option<Response> {
    match FindId(db.links, q.slug)
    case Some(id) => Some(Computed(cal, q, id, db.daily, db.daily))
    case None => None
  }

  /** Which of the three queries of a miss fail. */
  datatype Fails = Fails(link: bool, summary: bool, days: bool)
  {
    predicate Any() {
      link || summary || days
    }
  }

  predicate IsHit(redis: map<string, Entry>, now: int, key: string, readFails: bool) {
    !readFails && key in redis && now < redis[key].until && redis[key].value.Stats?
  }

  ghost function Reply(
      cal: Calendar, db: Db, redis: map<string, Entry>, now: int, key: string, q: Query, readFails: bool, fails: Fails)
    : Option<Response>
  {
    if IsHit(redis, now, key, readFails) then Some(redis[key].value.response)
    else if fails.Any() then None
    else Fresh(cal, db, q)
  }

  /** Only the answer of a miss is written, under its own key, and a hit does not renew its entry. */
  function RedisAfter(
      redis: map<string, Entry>, now: int, key: string, readFails: bool, reply: Option<Response>, applied: bool)
    : map<string, Entry>
  {
    if IsHit(redis, now, key, readFails) || reply.None? || !applied then redis
    else redis[key := Entry(Stats(reply.value), now + STATS_TTL)]
  }

  // ---- The steps of one undisturbed request

  lemma Unroll(cal: Calendar, keys: Keys, st: State, es: seq<Event>)
    requires es != []
    ensures RunAll(cal, keys, st, es) == RunAll(cal, keys, Step(cal, keys, st, es[0]), es[1..])
  {
  }

  function Rest(fails: Fails, applied: bool): seq<Event> {
    [Read(0, fails.link), Read(0, fails.summary), Read(0, fails.days), Set(0, applied)]
  }

  lemma Four(cal: Calendar, keys: Keys, st: State, a: Event, b: Event, c: Event, d: Event)
    ensures RunAll(cal, keys, st, [a, b, c, d])
      == Step(cal, keys, Step(cal, keys, Step(cal, keys, Step(cal, keys, st, a), b), c), d)
  {
    Unroll(cal, keys, st, [a, b, c, d]);
    assert [a, b, c, d][1..] == [b, c, d];
    var st1 := Step(cal, keys, st, a);
    Unroll(cal, keys, st1, [b, c, d]);
    assert [b, c, d][1..] == [c, d];
    var st2 := Step(cal, keys, st1, b);
    Unroll(cal, keys, st2, [c, d]);
    assert [c, d][1..] == [d];
    Unroll(cal, keys, Step(cal, keys, st2, c), [d]);
    assert [d][1..] == [];
  }

  /** A handler that is gone does nothing more. */
  lemma NobodyLeft(cal: Calendar, keys: Keys, st: State, fails: Fails, applied: bool)
    requires 0 !in st.handlers
    ensures RunAll(cal, keys, st, Rest(fails, applied)) == st
    ensures forall f :: Step(cal, keys, st, Read(0, f)) == st
    ensures Step(cal, keys, st, Set(0, applied)) == st
  {
    Four(cal, keys, st, Read(0, fails.link), Read(0, fails.summary), Read(0, fails.days), Set(0, applied));
  }

  ghost predicate OneReader(st: State, st': State, p: Option<Handler>) {
    && st'.dbs == st.dbs && st'.redis == st.redis && st'.writes == st.writes && st'.served == st.served
    && st'.now == st.now
    && (p.Some? ==> 0 in st'.handlers && st'.handlers[0] == p.value)
    && (p.None? ==> 0 !in st'.handlers)
  }

  lemma ReadStep(cal: Calendar, keys: Keys, st: State, p: Handler, f: bool)
    requires st.dbs != [] && 0 in st.handlers && st.handlers[0] == p
    ensures OneReader(st, Step(cal, keys, st, Read(0, f)),
                      if f then None else Advanced(cal, st.dbs[|st.dbs| - 1], |st.dbs| - 1, p))
  {
  }

  /** The three queries of a miss end with the database's own answer, or with none. */
  lemma ThreeReads(cal: Calendar, keys: Keys, st: State, q: Query, from: nat, fails: Fails)
    requires st.dbs != [] && 0 in st.handlers && st.handlers[0] == Missed(q, from)
    ensures var st1 := Step(cal, keys, st, Read(0, fails.link));
      var st3 := Step(cal, keys, Step(cal, keys, st1, Read(0, fails.summary)), Read(0, fails.days));
      var reply := if fails.Any() then None else Fresh(cal, st.dbs[|st.dbs| - 1], q);
      OneReader(st, st3, if reply.Some? then Some(Ready(q, from, reply.value)) else None)
  {
    var st1 := Step(cal, keys, st, Read(0, fails.link));
    ReadStep(cal, keys, st, Missed(q, from), fails.link);
    if 0 in st1.handlers {
      var st2 := Step(cal, keys, st1, Read(0, fails.summary));
      ReadStep(cal, keys, st1, st1.handlers[0], fails.summary);
      if 0 in st2.handlers {
        ReadStep(cal, keys, st2, st2.handlers[0], fails.days);
      } else {
        NobodyLeft(cal, keys, st2, fails, false);
      }
    } else {
      NobodyLeft(cal, keys, st1, fails, false);
    }
  }

  /** What one undisturbed request, answered with `reply`, leaves behind. */
  ghost predicate Answered(
      keys: Keys, st: State, st': State, q: Query, miss: Option<nat>, reply: Option<Response>, applied: bool)
  {
    && st'.redis == (if miss.None? || reply.None? || !applied then st.redis
                     else st.redis[keys(q) := Entry(Stats(reply.value), st.now + STATS_TTL)])
    && st'.served == st.served + (if reply.Some? then [Served(q, reply.value, st.now, miss)] else [])
  }

  lemma RestOfMiss(cal: Calendar, keys: Keys, st: State, q: Query, from: nat, fails: Fails, applied: bool)
    requires st.dbs != [] && 0 in st.handlers && st.handlers[0] == Missed(q, from)
    ensures var st' := RunAll(cal, keys, st, Rest(fails, applied));
      var reply := if fails.Any() then None else Fresh(cal, st.dbs[|st.dbs| - 1], q);
      Answered(keys, st, st', q, Some(from), reply, applied)
  {
    Four(cal, keys, st, Read(0, fails.link), Read(0, fails.summary), Read(0, fails.days), Set(0, applied));
    ThreeReads(cal, keys, st, q, from, fails);
    var st1 := Step(cal, keys, st, Read(0, fails.link));
    var st3 := Step(cal, keys, Step(cal, keys, st1, Read(0, fails.summary)), Read(0, fails.days));
    if 0 !in st3.handlers {
      NobodyLeft(cal, keys, st3, fails, applied);
    }
  }

  lemma GetStep(cal: Calendar, keys: Keys, st: State, q: Query, readFails: bool)
    requires st.dbs != [] && st.handlers == map[] && q.Valid()
    ensures var mid := Step(cal, keys, st, Get(0, q, readFails));
      && mid.dbs == st.dbs && mid.redis == st.redis && mid.now == st.now
      && (if IsHit(st.redis, st.now, keys(q), readFails)
          then 0 !in mid.handlers
            && mid.served == st.served + [Served(q, st.redis[keys(q)].value.response, st.now, None)]
          else 0 in mid.handlers && mid.handlers[0] == Missed(q, |st.dbs| - 1) && mid.served == st.served)
  {
  }

  lemma AnsweredSince(
      keys: Keys, st: State, mid: State, st': State, q: Query, miss: Option<nat>, reply: Option<Response>,
      applied: bool)
    requires mid.redis == st.redis && mid.served == st.served && mid.now == st.now
    requires Answered(keys, mid, st', q, miss, reply, applied)
    ensures Answered(keys, st, st', q, miss, reply, applied)
  {
  }

  lemma HitSteps(cal: Calendar, keys: Keys, st: State, q: Query, fails: Fails, applied: bool)
    requires st.dbs != [] && st.handlers == map[] && q.Valid() && IsHit(st.redis, st.now, keys(q), false)
    ensures var st' := RunAll(cal, keys, st, [Get(0, q, false)] + Rest(fails, applied));
      Answered(keys, st, st', q, None, Some(st.redis[keys(q)].value.response), applied)
  {
    var es := [Get(0, q, false)] + Rest(fails, applied);
    assert es[1..] == Rest(fails, applied);
    Unroll(cal, keys, st, es);
    GetStep(cal, keys, st, q, false);
    NobodyLeft(cal, keys, Step(cal, keys, st, Get(0, q, false)), fails, applied);
  }

  lemma MissFrom(
      cal: Calendar, keys: Keys, st: State, mid: State, q: Query, from: nat, fails: Fails, applied: bool)
    requires mid.redis == st.redis && mid.served == st.served && mid.now == st.now && mid.dbs == st.dbs
    requires mid.dbs != [] && 0 in mid.handlers && mid.handlers[0] == Missed(q, from)
    ensures Answered(keys, st, RunAll(cal, keys, mid, Rest(fails, applied)), q, Some(from),
                     if fails.Any() then None else Fresh(cal, st.dbs[|st.dbs| - 1], q), applied)
  {
    var reply := if fails.Any() then None else Fresh(cal, mid.dbs[|mid.dbs| - 1], q);
    RestOfMiss(cal, keys, mid, q, from, fails, applied);
    AnsweredSince(keys, st, mid, RunAll(cal, keys, mid, Rest(fails, applied)), q, Some(from), reply, applied);
  }

  lemma MissSteps(cal: Calendar, keys: Keys, st: State, q: Query, readFails: bool, fails: Fails, applied: bool)
    requires st.dbs != [] && st.handlers == map[] && q.Valid() && !IsHit(st.redis, st.now, keys(q), readFails)
    ensures Answered(keys, st, RunAll(cal, keys, st, [Get(0, q, readFails)] + Rest(fails, applied)), q,
                     Some(|st.dbs| - 1),
                     if fails.Any() then None else Fresh(cal, st.dbs[|st.dbs| - 1], q), applied)
  {
    var es := [Get(0, q, readFails)] + Rest(fails, applied);
    var mid := Step(cal, keys, st, Get(0, q, readFails));
    assert es[1..] == Rest(fails, applied);
    Unroll(cal, keys, st, es);
    GetStep(cal, keys, st, q, readFails);
    MissFrom(cal, keys, st, mid, q, |st.dbs| - 1, fails, applied);
  }

  /** An undisturbed request is a run of the steps: same answer, same cache afterwards. */
  lemma RequestSteps(
      cal: Calendar, keys: Keys, st: State, q: Query, readFails: bool, fails: Fails, applied: bool)
    requires st.dbs != [] && st.handlers == map[] && q.Valid()
    ensures var st' := RunAll(cal, keys, st, [Get(0, q, readFails)] + Rest(fails, applied));
      var reply := Reply(cal, st.dbs[|st.dbs| - 1], st.redis, st.now, keys(q), q, readFails, fails);
      var miss := if IsHit(st.redis, st.now, keys(q), readFails) then None else Some(|st.dbs| - 1);
      Answered(keys, st, st', q, miss, reply, applied)
  {
    if IsHit(st.redis, st.now, keys(q), readFails) {
      HitSteps(cal, keys, st, q, fails, applied);
    } else {
      MissSteps(cal, keys, st, q, readFails, fails, applied);
    }
  }

  // ---- The handler

  lemma DaysGrow(cal: Calendar, rows: seq<DailyRow>, n: nat)
    requires n < |rows|
    ensures DaysOfRows(cal, rows[..n + 1]) == DaysOfRows(cal, rows[..n]) + [DayOfRow(cal, rows[n])]
  {
  }

  class StatsHandler {
    const cal: Calendar
    var db: Db
    var redis: map<string, Entry>
    var now: int

    constructor (cal: Calendar, db: Db, now: int)
      ensures this.cal == cal && this.db == db && redis == map[] && this.now == now
    {
      this.cal, this.db, this.redis, this.now := cal, db, map[], now;
    }

    /** The date range of a request: parameters that can be read replace the defaults. */
    method ReadRange(slug: string, start: Option<int>, end: Option<int>) returns (q: Query)
      ensures q == QueryOf(slug, now, start, end)
    {
      var endDate := DayOf(now);
      var startDate := endDate - 30;
      if start.Some? {
        startDate := start.value;
      }
      if end.Some? {
        endDate := end.value;
      }
      q := Query(slug, startDate, endDate);
    }

    method GetLinkID(slug: string) returns (id: Option<nat>)
      requires LinkCache.OneOwner(db.links)
      ensures id == FindId(db.links, slug)
    {
      if i :| i in db.links && LinkCache.LiveOwner(db.links, i, slug) {
        id := Some(i);
        var found := FindId(db.links, slug).value;
        assert LinkCache.Same(db.links[found].slug, db.links[i].slug);
      } else {
        id := None;
      }
    }

    method Summary(id: nat) returns (clicks: nat, visitors: nat)
      ensures clicks == SumClicks(db.daily, id) && visitors == SumVisitors(db.daily, id)
    {
      clicks, visitors := 0, 0;
      var left := LinkDays(db.daily, id);
      while left != {}
        invariant left <= LinkDays(db.daily, id)
        invariant clicks + SumOver(left, DayClicks(db.daily)) == SumClicks(db.daily, id)
        invariant visitors + SumOver(left, DayVisitors(db.daily)) == SumVisitors(db.daily, id)
        decreases |left|
      {
        var k :| k in left;
        SumTake(left, DayClicks(db.daily), k);
        SumTake(left, DayVisitors(db.daily), k);
        clicks, visitors := clicks + db.daily[k].clicks, visitors + db.daily[k].visitors;
        left := left - {k};
      }
    }

    method BuildDaily(rows: seq<DailyRow>) returns (daily: seq<DayResponse>)
      ensures daily == DaysOfRows(cal, rows)
    {
      daily := [];
      for i := 0 to |rows|
        invariant daily == DaysOfRows(cal, rows[..i])
      {
        DaysGrow(cal, rows, i);
        daily := daily + [DayOfRow(cal, rows[i])];
      }
      assert rows[..|rows|] == rows;
    }

    /** The three queries of a miss. */
    method Compute(q: Query, fails: Fails) returns (answer: Option<Response>)
      requires LinkCache.OneOwner(db.links)
      ensures answer == if fails.Any() then None else Fresh(cal, db, q)
    {
      if fails.link {
        return None;
      }
      var id := GetLinkID(q.slug);
      if id.None? || fails.summary {
        return None;
      }
      var clicks, visitors := Summary(id.value);
      if fails.days {
        return None;
      }
      var daily := BuildDaily(RowsBetween(db.daily, id.value, q.start, q.end));
      answer := Some(Response(q.slug, clicks, visitors, daily));
    }

    /** The cache before and after the queries, under a given key. */
    method Respond(q: Query, key: string, readFails: bool, fails: Fails, applied: bool)
      returns (answer: Option<Response>)
      requires LinkCache.OneOwner(db.links)
      modifies this`redis
      ensures answer == Reply(cal, db, old(redis), now, key, q, readFails, fails)
      ensures redis == RedisAfter(old(redis), now, key, readFails, answer, applied)
    {
      if !readFails && key in redis && now < redis[key].until && redis[key].value.Stats? {
        return Some(redis[key].value.response);
      }
      answer := Compute(q, fails);
      if answer.Some? && applied {
        redis := redis[key := Entry(Stats(answer.value), now + STATS_TTL)];
      }
    }

    method GetStats(slug: string, start: Option<int>, end: Option<int>, readFails: bool, fails: Fails, applied: bool)
      returns (answer: Option<Response>)
      requires LinkCache.OneOwner(db.links)
      modifies this`redis
      ensures var q := QueryOf(slug, now, start, end);
        var key := CacheKey(cal, q);
        && answer == Reply(cal, db, old(redis), now, key, q, readFails, fails)
        && redis == RedisAfter(old(redis), now, key, readFails, answer, applied)
        && (answer.Some? && !IsHit(old(redis), now, key, readFails) ==> answer.value.slug == slug)
    {
      var q := ReadRange(slug, start, end);
      answer := Respond(q, CacheKey(cal, q), readFails, fails, applied);
    }
  }
}
