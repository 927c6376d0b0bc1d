/** `ProcessPendingClicks` as it is written, proved against its effect and against the steps of the pipeline. */
module ClickProcessing {
  import opened Options
  import opened Replies
  import opened Clicks
  import opened Store
  import opened Pipeline

  /** How each outside call of one run goes; `faults[i]` makes the lookup for message i fail. */
  datatype Outcomes = Outcomes(read: Reply, faults: seq<bool>, begin: bool, copy: bool, commit: Reply, ack: Reply)

  datatype Effect = Effect(stream: Stream, db: Db, failed: bool)

  function Acked(q: Stream, ids: seq<nat>, ack: Reply): Stream {
    if ack.Refused? then q else AfterAck(q, ids)
  }

  /** What one run does to the stream and the log, and whether it reports an error. */
  function BatchEffect(net: NetLib, q: Stream, d: Db, o: Outcomes): Effect {
    var ms := Delivery(q);
    var records := Records(net, ms, Answers(d.live, ms, o.faults));
    var logged := d.(log := d.log + RowsFor(records));
    if o.read.Refused? || q.cursor.None? then Effect(q, d, true)
    else if o.read.ReplyLost? then Effect(AfterRead(q), d, true)
    else if ms == [] then Effect(q, d, false)
    else if records == [] then Effect(Acked(AfterRead(q), Ids(ms), o.ack), d, false)
    else if !o.begin || !o.copy || o.commit.Refused? then Effect(AfterRead(q), d, true)
    else if o.commit.ReplyLost? then Effect(AfterRead(q), logged, true)
    else Effect(Acked(AfterRead(q), Ids(ms), o.ack), logged, false)
  }

  class RedisClient {
    var stream: Stream

    constructor (q: Stream)
      ensures stream == q
    {
      stream := q;
    }

    /** BUSYGROUP counts as success and leaves the cursor where it is. */
    method EnsureStreamExists(outcome: Reply) returns (failed: bool)
      modifies this
      ensures stream == if outcome.Refused? then old(stream) else AfterEnsureGroup(old(stream))
      ensures failed == !outcome.Fine?
    {
      if outcome.Fine? || outcome.ReplyLost? {
        var busy := stream.cursor.Some?;
        if !busy {
          stream := stream.(cursor := Some(0));
        }
      }
      failed := outcome != Fine;
    }

    /** Without a group the command is refused (NOGROUP). */
    method ReadPendingClicks(outcome: Reply) returns (ms: seq<Message>, failed: bool)
      modifies this
      ensures stream == if outcome.Refused? then old(stream) else AfterRead(old(stream))
      ensures failed == (!outcome.Fine? || old(stream).cursor.None?)
      ensures ms == if failed then [] else Delivery(old(stream))
    {
      ms := [];
      failed := outcome != Fine || stream.cursor.None?;
      if !outcome.Refused? {
        if !failed {
          ms := Delivery(stream);
        }
        stream := AfterRead(stream);
      }
    }

    method AckClicks(ids: seq<nat>, outcome: Reply) returns (failed: bool)
      modifies this
      ensures stream == Acked(old(stream), ids, outcome)
      ensures failed == (ids != [] && !outcome.Fine?)
    {
      failed := false;
      if |ids| == 0 {
        assert stream.pending - (set i | i in ids) == stream.pending;
        return;
      }
      if !outcome.Refused? {
        stream := AfterAck(stream, ids);
      }
      failed := outcome != Fine;
    }
  }

  class Database {
    var db: Db

    constructor (d: Db)
      ensures db == d
    {
      db := d;
    }

    /** The transaction's one commit: all rows or none. */
    method Commit(rows: seq<LogRow>, outcome: Reply) returns (failed: bool)
      modifies this
      ensures db == old(db).(log := if outcome.Refused? then old(db).log else old(db).log + rows)
      ensures failed == !outcome.Fine?
    {
      if !outcome.Refused? {
        db := db.(log := db.log + rows);
      }
      failed := outcome != Fine;
    }
  }

  class ClickProcessor {
    const rdb: RedisClient
    const pool: Database

    constructor (rdb: RedisClient, pool: Database)
      ensures this.rdb == rdb && this.pool == pool
    {
      this.rdb := rdb;
      this.pool := pool;
    }

    /** The classification loop. */
    method ClassifyBatch(net: NetLib, ms: seq<Message>, faults: seq<bool>)
      returns (clicks: seq<ClickRecord>, validIDs: seq<nat>)
      ensures validIDs == Ids(ms)
      ensures clicks == Records(net, ms, Answers(pool.db.live, ms, faults))
    {
      clicks, validIDs := [], [];
      for i := 0 to |ms|
        invariant validIDs == Ids(ms[..i])
        invariant clicks == Records(net, ms[..i], Answers(pool.db.live, ms[..i], faults))
      {
        assert ms[..i + 1][..i] == ms[..i];
        assert Answers(pool.db.live, ms[..i + 1], faults)[..i] == Answers(pool.db.live, ms[..i], faults);
        assert Ids(ms[..i + 1]) == Ids(ms[..i]) + [ms[i].id];
        var msg := ms[i];
        if msg.body.MissingData? {
          validIDs := validIDs + [msg.id];
          continue;
        }
        if msg.body.Malformed? {
          validIDs := validIDs + [msg.id];
          continue;
        }
        var link := Answer(pool.db.live, msg.body, Faulty(faults, i));
        if !link.Found? {
          validIDs := validIDs + [msg.id];
          continue;
        }
        var payload := msg.body.payload;
        clicks := clicks + [RecordOf(net, payload, link.linkId)];
        validIDs := validIDs + [msg.id];
      }
      assert ms[..|ms|] == ms;
    }

    /** The rows array, filled in place. */
    method BuildRows(clicks: seq<ClickRecord>) returns (rows: array<LogRow>)
      ensures fresh(rows) && rows[..] == RowsFor(clicks)
    {
      rows := new LogRow[|clicks|];
      for i := 0 to |clicks|
        invariant forall j :: 0 <= j < i ==> rows[j] == RowFor(clicks[j])
      {
        var click := clicks[i];
        rows[i] := LogRow(click.linkId, click.ip, click.referer, None, click.userAgent, click.clickedAt);
      }
    }

    method ProcessPendingClicks(net: NetLib, o: Outcomes) returns (failed: bool)
      modifies rdb, pool
      ensures Effect(rdb.stream, pool.db, failed) == BatchEffect(net, old(rdb.stream), old(pool.db), o)
    {
      var messages, readFailed := rdb.ReadPendingClicks(o.read);
      if readFailed {
        return true;
      }
      if |messages| == 0 {
        return false;
      }
      var clicks, validIDs := ClassifyBatch(net, messages, o.faults);
      if |clicks| == 0 {
        var _ := rdb.AckClicks(validIDs, o.ack);
        return false;
      }
      if !o.begin {
        return true;
      }
      var rows := BuildRows(clicks);
      if !o.copy {
        return true;
      }
      var commitFailed := pool.Commit(rows[..], o.commit);
      if commitFailed {
        return true;
      }
      var _ := rdb.AckClicks(validIDs, o.ack);
      return false;
    }
  }

  // ---- What the effect amounts to

  /**
   * All goes well: the insertable messages are logged, in order, the whole batch leaves the pending
   * list, and a backlog of at most 1000 entries is read to its end.
   */
  lemma AllWell(net: NetLib, q: Stream, d: Db, o: Outcomes)
    requires o.read.Fine? && o.begin && o.copy && o.commit.Fine? && o.ack.Fine?
    requires q.cursor.Some? && q.Next() <= |q.added|
    requires forall i :: i in q.pending ==> i < q.Cursor()
    ensures var e := BatchEffect(net, q, d, o);
      && !e.failed
      && e.db.log == d.log + RowsFor(Records(net, Delivery(q), Answers(d.live, Delivery(q), o.faults)))
      && e.stream.pending == q.pending
      && e.stream.added == q.added && e.db.live == d.live
      && e.stream.Next() == (if |q.added| - q.Next() <= 1000 then |q.added| else q.Next() + 1000)
  {
    var e, ms := BatchEffect(net, q, d, o), Delivery(q);
    DeliveryLength(q);
    if ms == [] {
      assert d.log + [] == d.log;
    } else {
      forall i: nat | q.Next() <= i < q.Next() + |ms| ensures i in Ids(ms) {
        assert Ids(ms)[i - q.Next()] == i;
      }
      assert e.stream.pending == q.pending;
      if Records(net, ms, Answers(d.live, ms, o.faults)) == [] {
        assert d.log + [] == d.log;
      }
    }
  }

  /**
   * A failing run never acks. It adds rows only when its commit took effect and just the reply was lost,
   * and then all of them; otherwise the log is as it was.
   */
  lemma FailureAcksNothing(net: NetLib, q: Stream, d: Db, o: Outcomes)
    requires BatchEffect(net, q, d, o).failed
    ensures var e := BatchEffect(net, q, d, o);
      && q.pending <= e.stream.pending
      && (e.stream == q || e.stream == AfterRead(q))
      && (e.db == d
          || (o.commit.ReplyLost?
              && e.db.log == d.log + RowsFor(Records(net, Delivery(q), Answers(d.live, Delivery(q), o.faults)))))
      && (!o.commit.ReplyLost? ==> e.db == d)
  {
  }

  lemma SomeRecord(net: NetLib, d: Db, ms: seq<Message>, faults: seq<bool>)
    ensures Records(net, ms, Answers(d.live, ms, faults)) != [] <==>
      exists i :: 0 <= i < |ms| && Insertable(d.live, ms[i].body, Faulty(faults, i))
  {
    var answers := Answers(d.live, ms, faults);
    RecordsAreOrderedFilterMap(net, ms, answers);
    forall i | 0 <= i < |ms|
      ensures Classify(net, ms[i].body, answers[i]).Some? <==> Insertable(d.live, ms[i].body, Faulty(faults, i))
    {
      RowIffInsertable(net, d.live, ms[i].body, Faulty(faults, i));
    }
    var kept := Kept(net, ms, answers);
    if kept != [] {
      assert kept[0] in kept;
    }
  }

  /** A run reports an error exactly if its read failed, or it had a row to insert and its transaction failed. */
  lemma FailsIff(net: NetLib, q: Stream, d: Db, o: Outcomes)
    ensures var ms := Delivery(q);
      BatchEffect(net, q, d, o).failed <==>
        || !o.read.Fine? || q.cursor.None?
        || ((exists i :: 0 <= i < |ms| && Insertable(d.live, ms[i].body, Faulty(o.faults, i)))
            && (!o.begin || !o.copy || !o.commit.Fine?))
  {
    SomeRecord(net, d, Delivery(q), o.faults);
  }

  // ---- The run is made of steps of the pipeline

  function Looks(r: nat, faults: seq<bool>, n: nat): seq<Event> {
    if n == 0 then [] else Looks(r, faults, n - 1) + [Look(r, Faulty(faults, n - 1))]
  }

  /** The steps after classification. */
  function Tail(records: seq<ClickRecord>, r: nat, o: Outcomes): seq<Event> {
    var ack := [Ack(r, !o.ack.Refused?)];
    if records == [] then ack
    else if !o.begin || !o.copy then [Copy(r, false)]
    else if o.commit.Fine? then [Copy(r, true), Commit(r, true, true)] + ack
    else [Copy(r, true), Commit(r, o.commit.ReplyLost?, false)]
  }

  /** The steps one run takes. */
  function Steps(net: NetLib, q: Stream, d: Db, r: nat, o: Outcomes): seq<Event> {
    var ms := Delivery(q);
    if o.read.Refused? then []
    else if o.read.ReplyLost? || ms == [] then [Read(r, true)]
    else
      [Read(r, false)] + (Looks(r, o.faults, |ms|) + Tail(Records(net, ms, Answers(d.live, ms, o.faults)), r, o))
  }

  /** A run that has classified the first `n` messages of `ms`, everything else being as in `s`. */
  ghost predicate Collected(
      net: NetLib, s: State, s': State, r: nat, ms: seq<Message>, faults: seq<bool>, n: nat)
  {
    && n <= |ms|
    && s'.stream == s.stream && s'.db == s.db && s'.api == s.api
    && r in s'.runs && s'.runs == s.runs[r := s'.runs[r]]
    && s'.runs[r].phase == Classifying && s'.runs[r].done == n && s'.runs[r].messages == ms
    && s'.runs[r].records == Records(net, ms[..n], Answers(s.db.live, ms[..n], faults))
  }

  lemma LookCollects(net: NetLib, s: State, s1: State, r: nat, ms: seq<Message>, faults: seq<bool>, n: nat)
    requires n < |ms| && Collected(net, s, s1, r, ms, faults, n)
    ensures Collected(net, s, Step(net, s1, Look(r, Faulty(faults, n))), r, ms, faults, n + 1)
  {
    var front := ms[..n + 1];
    assert front[..n] == ms[..n];
    assert Answers(s.db.live, front, faults)[..n] == Answers(s.db.live, ms[..n], faults);
  }

  lemma {:induction false} LooksCollect(
      net: NetLib, s: State, s0: State, r: nat, ms: seq<Message>, faults: seq<bool>, n: nat)
    requires n <= |ms| && Collected(net, s, s0, r, ms, faults, 0)
    ensures Collected(net, s, RunAll(net, s0, Looks(r, faults, n)), r, ms, faults, n)
  {
    if n != 0 {
      LooksCollect(net, s, s0, r, ms, faults, n - 1);
      var last := Look(r, Faulty(faults, n - 1));
      var s1 := RunAll(net, s0, Looks(r, faults, n - 1));
      RunAllAppend(net, s0, Looks(r, faults, n - 1), [last]);
      RunOne(net, s1, last);
      LookCollects(net, s, s1, r, ms, faults, n - 1);
    }
  }

  /** The part of a run after classification. */
  lemma TailRefines(net: NetLib, s: State, r: nat, o: Outcomes)
    requires r in s.runs && Classified(s.runs[r])
    ensures var s', ids := RunAll(net, s, Tail(s.runs[r].records, r, o)), Ids(s.runs[r].messages);
      var logged := s.db.(log := s.db.log + RowsFor(s.runs[r].records));
      && s'.runs == s.runs - {r} && s'.api == s.api
      && (if s.runs[r].records == [] then s'.stream == Acked(s.stream, ids, o.ack) && s'.db == s.db
          else if !o.begin || !o.copy || o.commit.Refused? then s'.stream == s.stream && s'.db == s.db
          else if o.commit.ReplyLost? then s'.stream == s.stream && s'.db == logged
          else s'.stream == Acked(s.stream, ids, o.ack) && s'.db == logged)
  {
    var tail, ack := Tail(s.runs[r].records, r, o), Ack(r, !o.ack.Refused?);
    if s.runs[r].records == [] {
      RunOne(net, s, ack);
    } else if !o.begin || !o.copy {
      RunOne(net, s, Copy(r, false));
    } else {
      var s1 := Step(net, s, Copy(r, true));
      var commit := Commit(r, !o.commit.Refused?, o.commit.Fine?);
      assert tail == [Copy(r, true)] + ([commit] + tail[2..]);
      RunCons(net, s, Copy(r, true), [commit] + tail[2..]);
      RunCons(net, s1, commit, tail[2..]);
      var s2 := Step(net, s1, commit);
      if o.commit.Fine? {
        assert tail[2..] == [ack];
        RunOne(net, s2, ack);
      } else {
        assert tail[2..] == [];
      }
      assert s.runs[r := s1.runs[r]] - {r} == s.runs - {r};
    }
  }

  lemma HandedOver(net: NetLib, s: State, r: nat, faults: seq<bool>)
    requires r !in s.runs && Delivery(s.stream) != []
    ensures var s1 := Step(net, s, Read(r, false));
      && Collected(net, s1, s1, r, Delivery(s.stream), faults, 0)
      && s1.runs - {r} == s.runs && s1.stream == AfterRead(s.stream) && s1.db == s.db && s1.api == s.api
  {
  }

  lemma ReadAndLook(net: NetLib, s: State, r: nat, faults: seq<bool>)
    requires r !in s.runs && Delivery(s.stream) != []
    ensures var ms := Delivery(s.stream);
      var s2 := RunAll(net, Step(net, s, Read(r, false)), Looks(r, faults, |ms|));
      && r in s2.runs && Classified(s2.runs[r]) && s2.runs[r].messages == ms
      && s2.runs[r].records == Records(net, ms, Answers(s.db.live, ms, faults))
      && s2.runs - {r} == s.runs && s2.stream == AfterRead(s.stream) && s2.db == s.db && s2.api == s.api
  {
    var ms, s1 := Delivery(s.stream), Step(net, s, Read(r, false));
    HandedOver(net, s, r, faults);
    LooksCollect(net, s1, s1, r, ms, faults, |ms|);
    assert ms[..|ms|] == ms;
  }

  lemma HandedBatchRefines(net: NetLib, s: State, r: nat, o: Outcomes)
    requires r !in s.runs && o.read.Fine? && Delivery(s.stream) != []
    ensures var s' := RunAll(net, s, Steps(net, s.stream, s.db, r, o));
      var e := BatchEffect(net, s.stream, s.db, o);
      s'.stream == e.stream && s'.db == e.db && s'.runs == s.runs && s'.api == s.api
  {
    var ms := Delivery(s.stream);
    var records := Records(net, ms, Answers(s.db.live, ms, o.faults));
    var looks, tail := Looks(r, o.faults, |ms|), Tail(records, r, o);
    var s1 := Step(net, s, Read(r, false));
    RunCons(net, s, Read(r, false), looks + tail);
    RunAllAppend(net, s1, looks, tail);
    ReadAndLook(net, s, r, o.faults);
    TailRefines(net, RunAll(net, s1, looks), r, o);
  }

  /** Refinement: a run of `ProcessPendingClicks` is this sequence of steps, and it leaves no run behind. */
  lemma RunRefinesSteps(net: NetLib, s: State, r: nat, o: Outcomes)
    requires r !in s.runs
    ensures var s' := RunAll(net, s, Steps(net, s.stream, s.db, r, o));
      var e := BatchEffect(net, s.stream, s.db, o);
      s'.stream == e.stream && s'.db == e.db && s'.runs == s.runs && s'.api == s.api
  {
    if o.read.Fine? && Delivery(s.stream) != [] {
      HandedBatchRefines(net, s, r, o);
    } else if !o.read.Refused? {
      RunOne(net, s, Read(r, true));
    }
  }
}
