/** The steps of a batch run keep the invariant, and so does every run of the whole system. */
module PipelineSteps {
  import opened Options
  import opened Ranges
  import opened Clicks
  import opened Store
  import opened Pipeline
  import opened PipelineInvariant

  // ---- Read

  lemma ReadMoves(q: Stream)
    requires Delivery(q) != []
    ensures AfterRead(q).Cursor() == q.Next() + |Delivery(q)| <= |q.added|
    ensures AfterRead(q).pending == q.pending + Range(q.Next(), AfterRead(q).Cursor())
    ensures AfterRead(q).added == q.added && AfterRead(q).trimmed == q.trimmed
  {
  }

  lemma MovedKeepsStream(q: Stream, q': Stream, h: History)
    requires StreamInv(q, h)
    requires q'.added == q.added && q'.trimmed == q.trimmed && q.Next() <= q'.Cursor() <= |q.added|
    requires forall i :: i in q'.pending <==> i in q.pending || q.Next() <= i < q'.Cursor()
    ensures StreamInv(q', h)
  {
  }

  lemma ReadKeepsStream(q: Stream, h: History)
    requires StreamInv(q, h) && Delivery(q) != []
    ensures StreamInv(AfterRead(q), h)
  {
    ReadMoves(q);
    MovedKeepsStream(q, AfterRead(q), h);
  }

  lemma FreshBatch(q: Stream, q': Stream, h: History, ms: seq<Message>)
    requires StreamInv(q, h)
    requires q'.added == q.added && q'.Cursor() == q.Next() + |ms| <= |q.added|
    requires forall i :: q.Next() <= i < q'.Cursor() ==> i in q'.pending
    requires forall i :: 0 <= i < |ms| ==> ms[i] == Message(q.Next() + i, q.added[q.Next() + i].body)
    ensures BatchInv(q', h, Run(Classifying, q.Next(), ms, 0, [], []))
  {
  }

  /** A delivery is fresh: no entry of it was delivered, logged or skipped before. */
  lemma ReadOwnRun(net: NetLib, q: Stream, h: History)
    requires StreamInv(q, h) && Delivery(q) != []
    ensures RunInv(net, AfterRead(q), h, Run(Classifying, q.Next(), Delivery(q), 0, [], []))
  {
    ReadMoves(q);
    FreshBatch(q, AfterRead(q), h, Delivery(q));
  }

  lemma ReadKeepsOtherRuns(net: NetLib, q: Stream, h: History, runs: map<nat, Run>)
    requires RunsInv(net, q, h, runs) && Delivery(q) != []
    ensures RunsInv(net, AfterRead(q), h, runs)
    ensures forall p :: p in runs ==> runs[p].End() <= q.Next()
  {
    ReadMoves(q);
    forall p | p in runs ensures RunInv(net, AfterRead(q), h, runs[p]) && runs[p].End() <= q.Next() {
      assert RunInv(net, q, h, runs[p]);
      UntouchedKeeps(net, q, h, AfterRead(q), h, runs[p]);
    }
  }

  lemma NewRun(net: NetLib, q: Stream, h: History, runs: map<nat, Run>, r: nat, run: Run)
    requires RunsInv(net, q, h, runs) && RunInv(net, q, h, run)
    requires forall p :: p in runs ==> runs[p].End() <= run.first
    ensures RunsInv(net, q, h, runs[r := run])
  {
  }

  lemma ReadKeeps(net: NetLib, s: State, r: nat, replyLost: bool)
    requires Inv(net, s)
    ensures Inv(net, StartRun(s, r, replyLost))
  {
    if StartRun(s, r, replyLost) != s {
      ReadMoves(s.stream);
      ReadKeepsStream(s.stream, s.past);
      ReadKeepsOtherRuns(net, s.stream, s.past, s.runs);
      ReadOwnRun(net, s.stream, s.past);
      var run := Run(Classifying, s.stream.Next(), Delivery(s.stream), 0, [], []);
      NewRun(net, AfterRead(s.stream), s.past, s.runs, r, run);
    }
  }

  // ---- Classification of one message

  lemma SkipOwnRun(net: NetLib, q: Stream, h: History, run: Run)
    requires RunInv(net, q, h, run)
    requires run.phase == Classifying && run.done < |run.messages|
    ensures var m := run.messages[run.done];
      RunInv(net, q, h.(skipped := h.skipped + {m.id}), run.(done := run.done + 1))
  {
  }

  lemma KeepInBatch(q: Stream, h: History, run: Run, run': Run)
    requires BatchInv(q, h, run) && run.phase == Classifying && run.done < |run.messages|
    requires run'.phase == run.phase && run'.first == run.first && run'.messages == run.messages
    requires run'.done == run.done + 1 && run'.rowIds == run.rowIds + [run.messages[run.done].id]
    ensures BatchInv(q, h, run')
  {
    assert run.messages[run.done].id == run.first + run.done;
    assert run.messages[run.done].id in run'.rowIds;
    assert RowIdsInv(h, run');
  }

  lemma KeepOwnRun(net: NetLib, q: Stream, h: History, run: Run, c: ClickRecord)
    requires RunInv(net, q, h, run)
    requires run.phase == Classifying && run.done < |run.messages|
    requires RecordFrom(net, q.added, h.ever, run.messages[run.done].id, c)
    ensures var m := run.messages[run.done];
      RunInv(net, q, h, run.(done := run.done + 1, records := run.records + [c], rowIds := run.rowIds + [m.id]))
  {
    var m := run.messages[run.done];
    var run' := run.(done := run.done + 1, records := run.records + [c], rowIds := run.rowIds + [m.id]);
    KeepInBatch(q, h, run, run');
    forall j | 0 <= j < |run'.records|
      ensures RecordFrom(net, q.added, h.ever, run'.rowIds[j], run'.records[j])
    {
      if j < |run.records| {
        assert RecordFrom(net, q.added, h.ever, run.rowIds[j], run.records[j]);
      }
    }
  }

  /** What classification keeps is what the entry should yield. */
  lemma ClassifiedRight(net: NetLib, q: Stream, h: History, live: map<string, nat>, run: Run, fault: bool)
    requires BatchInv(q, h, run) && run.done < |run.messages| && LinksInv(live, h.ever)
    ensures var m := run.messages[run.done];
      var c := Classify(net, m.body, Answer(live, m.body, fault));
      c.Some? ==> RecordFrom(net, q.added, h.ever, m.id, c.value)
  {
  }

  lemma OwnRunChanged(net: NetLib, q: Stream, h: History, h': History, runs: map<nat, Run>, r: nat, run': Run)
    requires r in runs && RunsInv(net, q, h, runs)
    requires RunInv(net, q, h', run') && run'.first == runs[r].first && run'.End() == runs[r].End()
    requires h'.ever == h.ever && h'.lost == h.lost
    requires forall i :: i < run'.first || run'.End() <= i ==>
      (i in h.logged <==> i in h'.logged) && (i in h.skipped <==> i in h'.skipped)
    ensures RunsInv(net, q, h', runs[r := run'])
  {
    var runs' := runs[r := run'];
    forall p | p in runs' ensures RunInv(net, q, h', runs'[p]) {
      if p != r {
        assert RunInv(net, q, h, runs[p]);
        UntouchedKeeps(net, q, h, q, h', runs[p]);
      }
    }
  }

  lemma SkipKeepsRuns(
      net: NetLib, q: Stream, h: History, h': History, runs: map<nat, Run>, r: nat, run': Run)
    requires r in runs && RunsInv(net, q, h, runs)
    requires runs[r].phase == Classifying && runs[r].done < |runs[r].messages|
    requires run' == runs[r].(done := runs[r].done + 1)
    requires h' == h.(skipped := h.skipped + {runs[r].messages[runs[r].done].id})
    ensures RunsInv(net, q, h', runs[r := run'])
  {
    assert RunInv(net, q, h, runs[r]);
    SkipOwnRun(net, q, h, runs[r]);
    OwnRunChanged(net, q, h, h', runs, r, run');
  }

  lemma KeepKeepsRuns(
      net: NetLib, q: Stream, h: History, runs: map<nat, Run>, r: nat, c: ClickRecord, run': Run)
    requires r in runs && RunsInv(net, q, h, runs)
    requires runs[r].phase == Classifying && runs[r].done < |runs[r].messages|
    requires RecordFrom(net, q.added, h.ever, runs[r].messages[runs[r].done].id, c)
    requires run' == runs[r].(done := runs[r].done + 1, records := runs[r].records + [c],
                              rowIds := runs[r].rowIds + [runs[r].messages[runs[r].done].id])
    ensures RunsInv(net, q, h, runs[r := run'])
  {
    assert RunInv(net, q, h, runs[r]);
    KeepOwnRun(net, q, h, runs[r], c);
    OwnRunChanged(net, q, h, h, runs, r, run');
  }

  lemma LookKeepsRuns(net: NetLib, s: State, r: nat, fault: bool)
    requires RunsInv(net, s.stream, s.past, s.runs) && LinksInv(s.db.live, s.past.ever)
    requires Classifies(s, r)
    ensures var s' := LookStep(net, s, r, fault);
      RunsInv(net, s.stream, s'.past, s'.runs)
  {
    var s', run := LookStep(net, s, r, fault), s.runs[r];
    assert RunInv(net, s.stream, s.past, run);
    ClassifiedRight(net, s.stream, s.past, s.db.live, run, fault);
    var m := run.messages[run.done];
    var c := Classify(net, m.body, Answer(s.db.live, m.body, fault));
    if c.Some? {
      KeepKeepsRuns(net, s.stream, s.past, s.runs, r, c.value, s'.runs[r]);
    } else {
      SkipKeepsRuns(net, s.stream, s.past, s'.past, s.runs, r, s'.runs[r]);
    }
  }

  lemma SkipKeepsStream(q: Stream, h: History, run: Run)
    requires StreamInv(q, h) && BatchInv(q, h, run)
    requires run.phase == Classifying && run.done < |run.messages|
    ensures StreamInv(q, h.(skipped := h.skipped + {run.messages[run.done].id}))
  {
  }

  lemma LookKeepsStream(net: NetLib, s: State, r: nat, fault: bool)
    requires StreamInv(s.stream, s.past) && RunsInv(net, s.stream, s.past, s.runs) && Classifies(s, r)
    ensures StreamInv(s.stream, LookStep(net, s, r, fault).past)
  {
    assert RunInv(net, s.stream, s.past, s.runs[r]);
    SkipKeepsStream(s.stream, s.past, s.runs[r]);
  }

  lemma LookKeepsLog(net: NetLib, s: State, r: nat, fault: bool)
    requires LogInv(net, s.stream.added, s.db.log, s.past)
    ensures LogInv(net, s.stream.added, s.db.log, LookStep(net, s, r, fault).past)
  {
    GrowthKeepsLog(
      net, s.stream.added, s.stream.added, s.db.log, s.past, LookStep(net, s, r, fault).past);
  }

  lemma LookKeeps(net: NetLib, s: State, r: nat, fault: bool)
    requires Inv(net, s)
    ensures Inv(net, LookStep(net, s, r, fault))
  {
    if Classifies(s, r) {
      LookKeepsRuns(net, s, r, fault);
      LookKeepsStream(net, s, r, fault);
      LookKeepsLog(net, s, r, fault);
    }
  }

  // ---- Commit

  lemma DistinctAppend(a: seq<nat>, b: seq<nat>)
    requires Distinct(a) && Distinct(b)
    requires forall j :: 0 <= j < |b| ==> b[j] !in a
    ensures Distinct(a + b)
  {
  }

  lemma RowsAppend(
      net: NetLib, added: seq<Entry>, ever: map<string, nat>,
      source: seq<nat>, log: seq<LogRow>, ids: seq<nat>, records: seq<ClickRecord>)
    requires |source| == |log| && forall i :: 0 <= i < |source| ==> RowFrom(net, added, ever, source[i], log[i])
    requires |ids| == |records| && forall j :: 0 <= j < |ids| ==> RecordFrom(net, added, ever, ids[j], records[j])
    ensures forall i :: 0 <= i < |source + ids| ==>
      RowFrom(net, added, ever, (source + ids)[i], (log + RowsFor(records))[i])
  {
    forall i | 0 <= i < |source + ids|
      ensures RowFrom(net, added, ever, (source + ids)[i], (log + RowsFor(records))[i])
    {
      if i >= |source| {
        assert RecordFrom(net, added, ever, ids[i - |source|], records[i - |source|]);
      }
    }
  }

  lemma CommitKeepsLog(net: NetLib, s: State, run: Run)
    requires LogInv(net, s.stream.added, s.db.log, s.past)
    requires RunInv(net, s.stream, s.past, run) && run.phase == InTransaction
    ensures var s' := Committed(s, run); LogInv(net, s.stream.added, s'.db.log, s'.past)
  {
    assert RowIdsInv(s.past, run);
    assert forall j :: 0 <= j < |run.rowIds| ==> run.rowIds[j] !in s.past.logged;
    DistinctAppend(s.past.source, run.rowIds);
    RowsAppend(net, s.stream.added, s.past.ever, s.past.source, s.db.log, run.rowIds, run.records);
  }

  lemma CommitKeepsStream(s: State, run: Run)
    requires StreamInv(s.stream, s.past)
    requires BatchInv(s.stream, s.past, run) && run.phase == InTransaction
    ensures StreamInv(s.stream, Committed(s, run).past)
  {
    assert RowIdsInv(s.past, run);
  }

  lemma CommitOwnRun(net: NetLib, s: State, run: Run)
    requires RunInv(net, s.stream, s.past, run) && run.phase == InTransaction
    ensures RunInv(net, s.stream, Committed(s, run).past, run.(phase := Acking))
  {
    var run', h' := run.(phase := Acking), Committed(s, run).past;
    assert RowIdsInv(s.past, run);
    assert RowIdsInv(h', run');
    GrowthKeepsRecords(net, s.stream.added, s.past.ever, s.stream.added, h'.ever, run);
    assert RecordsInv(net, s.stream.added, h'.ever, run');
  }

  lemma FewerRuns(net: NetLib, q: Stream, h: History, runs: map<nat, Run>, r: nat)
    requires RunsInv(net, q, h, runs)
    ensures RunsInv(net, q, h, runs - {r})
  {
  }

  lemma CommitKeepsRuns(net: NetLib, s: State, r: nat)
    requires RunsInv(net, s.stream, s.past, s.runs)
    requires r in s.runs && s.runs[r].phase == InTransaction
    ensures RunsInv(net, s.stream, Committed(s, s.runs[r]).past, s.runs[r := s.runs[r].(phase := Acking)])
  {
    var run := s.runs[r];
    assert RunInv(net, s.stream, s.past, run);
    assert RowIdsInv(s.past, run);
    CommitOwnRun(net, s, run);
    OwnRunChanged(net, s.stream, s.past, Committed(s, run).past, s.runs, r, run.(phase := Acking));
  }

  lemma AppliedCommitKeeps(net: NetLib, s: State, r: nat, runs: map<nat, Run>)
    requires Inv(net, s)
    requires r in s.runs && s.runs[r].phase == InTransaction
    requires runs == s.runs - {r} || runs == s.runs[r := s.runs[r].(phase := Acking)]
    ensures Inv(net, Committed(s, s.runs[r]).(runs := runs))
  {
    var run, acking := s.runs[r], s.runs[r := s.runs[r].(phase := Acking)];
    assert RunInv(net, s.stream, s.past, run);
    CommitKeepsLog(net, s, run);
    CommitKeepsStream(s, run);
    CommitKeepsRuns(net, s, r);
    FewerRuns(net, s.stream, Committed(s, run).past, acking, r);
    assert acking - {r} == s.runs - {r};
  }

  lemma CommitKeeps(net: NetLib, s: State, r: nat, applied: bool, reported: bool)
    requires Inv(net, s)
    ensures Inv(net, CommitStep(s, r, applied, reported))
  {
    if r in s.runs && s.runs[r].phase == InTransaction {
      if applied {
        AppliedCommitKeeps(net, s, r, CommitStep(s, r, applied, reported).runs);
      } else {
        FewerRuns(net, s.stream, s.past, s.runs, r);
      }
    }
  }

  // ---- Ack, begin and copy, end

  lemma AckedIds(q: Stream, h: History, run: Run)
    requires BatchInv(q, h, run)
    ensures forall i :: i in Ids(run.messages) <==> run.first <= i < run.End()
  {
    forall i: nat | run.first <= i < run.End() ensures i in Ids(run.messages) {
      assert Ids(run.messages)[i - run.first] == i;
    }
  }

  lemma AckKeepsStream(q: Stream, h: History, run: Run)
    requires StreamInv(q, h) && BatchInv(q, h, run) && |run.records| == |run.rowIds| && MayAck(run)
    ensures StreamInv(AfterAck(q, Ids(run.messages)), h)
  {
    AckedIds(q, h, run);
    assert RowIdsInv(h, run);
    forall i: nat | run.first <= i < run.End() ensures i in h.logged || i in h.skipped {
    }
  }

  lemma AckKeepsRuns(net: NetLib, q: Stream, h: History, runs: map<nat, Run>, r: nat)
    requires r in runs && RunsInv(net, q, h, runs)
    ensures RunsInv(net, AfterAck(q, Ids(runs[r].messages)), h, runs - {r})
  {
    var q' := AfterAck(q, Ids(runs[r].messages));
    assert RunInv(net, q, h, runs[r]);
    AckedIds(q, h, runs[r]);
    forall p | p in runs && p != r ensures RunInv(net, q', h, runs[p]) {
      assert RunInv(net, q, h, runs[p]);
      UntouchedKeeps(net, q, h, q', h, runs[p]);
    }
  }

  lemma AckKeeps(net: NetLib, s: State, r: nat, applied: bool)
    requires Inv(net, s)
    ensures Inv(net, AckStep(s, r, applied))
  {
    if r in s.runs && MayAck(s.runs[r]) {
      assert RunInv(net, s.stream, s.past, s.runs[r]);
      AckKeepsStream(s.stream, s.past, s.runs[r]);
      AckKeepsRuns(net, s.stream, s.past, s.runs, r);
      FewerRuns(net, s.stream, s.past, s.runs, r);
    }
  }

  lemma CopyKeepsRuns(net: NetLib, q: Stream, h: History, runs: map<nat, Run>, r: nat, run': Run)
    requires r in runs && RunsInv(net, q, h, runs) && Classified(runs[r])
    requires run' == runs[r].(phase := InTransaction)
    ensures RunsInv(net, q, h, runs[r := run'])
  {
    assert RunInv(net, q, h, runs[r]);
    assert RecordsInv(net, q.added, h.ever, run');
    assert RowIdsInv(h, run');
    assert BatchInv(q, h, run');
    OwnRunChanged(net, q, h, h, runs, r, run');
  }

  lemma CopyKeeps(net: NetLib, s: State, r: nat, ok: bool)
    requires Inv(net, s)
    ensures Inv(net, CopyStep(s, r, ok))
  {
    if r in s.runs && Classified(s.runs[r]) {
      CopyKeepsRuns(net, s.stream, s.past, s.runs, r, s.runs[r].(phase := InTransaction));
      FewerRuns(net, s.stream, s.past, s.runs, r);
    }
  }

  // ---- Any step, any run

  ghost predicate Keeps(net: NetLib, s: State, e: Event) {
    Inv(net, s) ==> Inv(net, Step(net, s, e))
  }

  lemma GroupStepKeeps(net: NetLib, s: State)
    ensures Keeps(net, s, EnsureGroup)
  {
    if Inv(net, s) {
      EnsureGroupKeeps(net, s);
    }
  }

  lemma CreatedStepKeeps(net: NetLib, s: State, slug: string, id: nat)
    ensures Keeps(net, s, LinkCreated(slug, id))
  {
    if Inv(net, s) && slug !in s.past.ever {
      LinksChangeKeeps(net, s, s.db.live[slug := id], s.past.ever[slug := id]);
    }
  }

  lemma DeletedStepKeeps(net: NetLib, s: State, slug: string)
    ensures Keeps(net, s, LinkDeleted(slug))
  {
    if Inv(net, s) {
      LinksChangeKeeps(net, s, s.db.live - {slug}, s.past.ever);
    }
  }

  lemma AppendStepKeeps(net: NetLib, s: State, e: Event)
    requires e.XAdd? || e.ForeignXAdd?
    ensures Keeps(net, s, e)
  {
    if Inv(net, s) && MayTrim(s.stream, e.trim) {
      if e.ForeignXAdd? {
        AppendKeeps(net, s, Entry(e.body, None), e.trim);
      } else if e.worker in s.api.held {
        AppendKeeps(net, s, Entry(Decoded(s.api.clicks[s.api.held[e.worker]]), Some(s.api.held[e.worker])), e.trim);
      }
    }
  }

  lemma ReadStepKeeps(net: NetLib, s: State, r: nat, replyLost: bool)
    ensures Keeps(net, s, Read(r, replyLost))
  {
    assert Step(net, s, Read(r, replyLost)) == StartRun(s, r, replyLost);
    if Inv(net, s) {
      ReadKeeps(net, s, r, replyLost);
    }
  }

  lemma LookStepKeeps(net: NetLib, s: State, r: nat, fault: bool)
    ensures Keeps(net, s, Look(r, fault))
  {
    if Inv(net, s) {
      LookKeeps(net, s, r, fault);
    }
  }

  lemma CopyStepKeeps(net: NetLib, s: State, r: nat, ok: bool)
    ensures Keeps(net, s, Copy(r, ok))
  {
    if Inv(net, s) {
      CopyKeeps(net, s, r, ok);
    }
  }

  lemma CommitStepKeeps(net: NetLib, s: State, r: nat, applied: bool, reported: bool)
    ensures Keeps(net, s, Commit(r, applied, reported))
  {
    if Inv(net, s) {
      CommitKeeps(net, s, r, applied, reported);
    }
  }

  lemma AckStepKeeps(net: NetLib, s: State, r: nat, applied: bool)
    ensures Keeps(net, s, Ack(r, applied))
  {
    if Inv(net, s) {
      AckKeeps(net, s, r, applied);
    }
  }

  lemma CrashStepKeeps(net: NetLib, s: State, r: nat)
    ensures Keeps(net, s, Crash(r))
  {
    if Inv(net, s) {
      FewerRuns(net, s.stream, s.past, s.runs, r);
    }
  }

  lemma StepKeeps(net: NetLib, s: State, e: Event)
    requires Inv(net, s)
    ensures Keeps(net, s, e)
  {
    match e {
      case Offer(_) => ApiStepKeeps(net, s, e);
      case Take(_) => ApiStepKeeps(net, s, e);
      case Release(_) => ApiStepKeeps(net, s, e);
      case ApiCrash => ApiStepKeeps(net, s, e);
      case EnsureGroup => GroupStepKeeps(net, s);
      case LinkCreated(slug, id) => CreatedStepKeeps(net, s, slug, id);
      case LinkDeleted(slug) => DeletedStepKeeps(net, s, slug);
      case XAdd(_, _) => AppendStepKeeps(net, s, e);
      case ForeignXAdd(_, _) => AppendStepKeeps(net, s, e);
      case Read(r, lost) => ReadStepKeeps(net, s, r, lost);
      case Look(r, fault) => LookStepKeeps(net, s, r, fault);
      case Copy(r, ok) => CopyStepKeeps(net, s, r, ok);
      case Commit(r, applied, reported) => CommitStepKeeps(net, s, r, applied, reported);
      case Ack(r, applied) => AckStepKeeps(net, s, r, applied);
      case Crash(r) => CrashStepKeeps(net, s, r);
    }
  }

  lemma {:induction false} EveryRunKeeps(net: NetLib, s: State, es: seq<Event>)
    requires Inv(net, s)
    ensures Inv(net, RunAll(net, s, es))
    decreases |es|
  {
    if es != [] {
      StepKeeps(net, s, es[0]);
      EveryRunKeeps(net, Step(net, s, es[0]), es[1..]);
    }
  }

  lemma InitHolds(net: NetLib)
    ensures Inv(net, INIT)
  {
    assert Sent(INIT.stream.added) == {};
  }
}
