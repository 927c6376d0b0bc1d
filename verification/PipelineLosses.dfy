/** How an entry that was read can fail to be logged: its run ends too early, or it is skipped. */
module PipelineLosses {
  import opened Options
  import opened Slugs
  import opened Clicks
  import opened Store
  import opened Pipeline
  import opened PipelineInvariant
  import opened PipelineSteps
  import opened PipelineTheorems

  // ---- Orphans

  /** Pending, and in no batch. */
  ghost predicate Orphan(s: State, i: nat) {
    i in s.stream.pending && forall r :: r in s.runs ==> !s.runs[r].Holds(i)
  }

  lemma OrphanRead(net: NetLib, s: State, r: nat, replyLost: bool, i: nat)
    requires StreamInv(s.stream, s.past) && Orphan(s, i)
    ensures Orphan(StartRun(s, r, replyLost), i)
  {
    if Delivery(s.stream) != [] {
      ReadMoves(s.stream);
    }
  }

  lemma OrphanCommit(net: NetLib, s: State, r: nat, applied: bool, reported: bool, i: nat)
    requires r in s.runs ==> RunInv(net, s.stream, s.past, s.runs[r])
    requires Orphan(s, i)
    ensures var s' := CommitStep(s, r, applied, reported);
      Orphan(s', i) && (i in s'.past.logged <==> i in s.past.logged)
  {
    if r in s.runs {
      assert RowIdsInv(s.past, s.runs[r]);
    }
  }

  lemma OrphanAck(net: NetLib, s: State, r: nat, applied: bool, i: nat)
    requires r in s.runs ==> RunInv(net, s.stream, s.past, s.runs[r])
    requires Orphan(s, i)
    ensures Orphan(AckStep(s, r, applied), i)
  {
    if r in s.runs {
      AckedIds(s.stream, s.past, s.runs[r]);
    }
  }

  /** The other steps start no run, and leave stream, log and batches as they are. */
  lemma OrphanOther(net: NetLib, s: State, e: Event, i: nat)
    requires Orphan(s, i) && !e.Read? && !e.Commit? && !e.Ack?
    ensures var s' := Step(net, s, e); Orphan(s', i) && s'.past.logged == s.past.logged
  {
  }

  ghost predicate StaysOrphan(s: State, s': State, i: nat) {
    Orphan(s', i) && (i in s'.past.logged <==> i in s.past.logged)
  }

  lemma OrphanStep(net: NetLib, s: State, e: Event, i: nat)
    requires Inv(net, s) && Orphan(s, i)
    ensures StaysOrphan(s, Step(net, s, e), i)
  {
    if e.Read? {
      OrphanRead(net, s, e.run, e.replyLost, i);
    } else if e.Commit? {
      OrphanCommit(net, s, e.run, e.applied, e.reported, i);
    } else if e.Ack? {
      OrphanAck(net, s, e.run, e.applied, i);
    } else {
      OrphanOther(net, s, e, i);
    }
  }

  /** Nothing ever rereads an orphan: it stays pending, and if it has no row it never gets one. */
  lemma {:induction false} OrphansStay(net: NetLib, s: State, es: seq<Event>, i: nat)
    requires Inv(net, s) && Orphan(s, i)
    ensures var s' := RunAll(net, s, es);
      i in s'.stream.pending && (i in s'.past.logged <==> i in s.past.logged)
    decreases |es|
  {
    if es != [] {
      StepKeeps(net, s, es[0]);
      OrphanStep(net, s, es[0], i);
      OrphansStay(net, Step(net, s, es[0]), es[1..], i);
    }
  }

  // ---- Where orphans come from

  /** The run ends here and its batch stays: a crash, a failed copy, a commit that failed or seemed to, a failed ack. */
  predicate EndsUnacked(s: State, e: Event, r: nat)
    requires r in s.runs
  {
    || e == Crash(r)
    || (e == Copy(r, false) && Classified(s.runs[r]) && s.runs[r].records != [])
    || (e.Commit? && e.run == r && s.runs[r].phase == InTransaction && !e.reported)
    || (e == Ack(r, false) && MayAck(s.runs[r]))
  }

  lemma EndsHere(net: NetLib, s: State, e: Event, r: nat)
    requires r in s.runs && EndsUnacked(s, e, r)
    ensures var s' := Step(net, s, e); s'.runs == s.runs - {r} && s'.stream == s.stream
  {
  }

  lemma EndedRunOrphans(net: NetLib, s: State, s': State, r: nat, i: nat)
    requires r in s.runs && s.runs[r].Holds(i) && RunsInv(net, s.stream, s.past, s.runs)
    requires s'.runs == s.runs - {r} && s'.stream == s.stream
    ensures Orphan(s', i)
  {
    assert RunInv(net, s.stream, s.past, s.runs[r]);
  }

  lemma StaysHeld(net: NetLib, s: State, e: Event, r: nat, i: nat)
    requires r in s.runs && s.runs[r].Holds(i)
    requires !EndsUnacked(s, e, r) && !(e == Ack(r, true) && MayAck(s.runs[r]))
    ensures var s' := Step(net, s, e); r in s'.runs && s'.runs[r].Holds(i)
  {
  }

  lemma AckTakesAll(net: NetLib, s: State, r: nat, i: nat)
    requires r in s.runs && s.runs[r].Holds(i) && MayAck(s.runs[r]) && RunsInv(net, s.stream, s.past, s.runs)
    ensures i !in AckStep(s, r, true).stream.pending
  {
    assert RunInv(net, s.stream, s.past, s.runs[r]);
    AckedIds(s.stream, s.past, s.runs[r]);
  }

  /** An entry of a batch becomes an orphan exactly when its run ends without acknowledging it. */
  lemma BecomesOrphan(net: NetLib, s: State, e: Event, r: nat, i: nat)
    requires Inv(net, s) && r in s.runs && s.runs[r].Holds(i)
    ensures Orphan(Step(net, s, e), i) <==> EndsUnacked(s, e, r)
  {
    if EndsUnacked(s, e, r) {
      EndsHere(net, s, e, r);
      EndedRunOrphans(net, s, Step(net, s, e), r, i);
    } else if e == Ack(r, true) && MayAck(s.runs[r]) {
      AckTakesAll(net, s, r, i);
    } else {
      StaysHeld(net, s, e, r, i);
    }
  }

  /** Such an entry has no row, unless the run's commit took effect. */
  lemma OrphanIsUnlogged(net: NetLib, s: State, e: Event, r: nat, i: nat)
    requires Inv(net, s) && r in s.runs && s.runs[r].Holds(i)
    requires EndsUnacked(s, e, r) && s.runs[r].phase != Acking && !(e.Commit? && e.applied)
    ensures i !in Step(net, s, e).past.logged
  {
    assert RunInv(net, s.stream, s.past, s.runs[r]);
  }

  lemma NotYetRead(net: NetLib, q: Stream, h: History, runs: map<nat, Run>, i: nat)
    requires StreamInv(q, h) && RunsInv(net, q, h, runs) && q.Next() <= i
    ensures i !in h.logged && forall p :: p in runs ==> !runs[p].Holds(i)
  {
    forall p | p in runs ensures !runs[p].Holds(i) {
      assert RunInv(net, q, h, runs[p]);
    }
  }

  lemma LostRead(s: State, r: nat)
    requires r !in s.runs && Delivery(s.stream) != []
    ensures var s' := StartRun(s, r, true);
      s'.runs == s.runs && s'.past == s.past && s'.stream == AfterRead(s.stream)
  {
  }

  /** A read whose reply is lost orphans everything it delivered, before any row is written. */
  lemma LostReadOrphans(net: NetLib, s: State, r: nat, i: nat)
    requires Inv(net, s) && r !in s.runs
    requires s.stream.Next() <= i < s.stream.Next() + |Delivery(s.stream)|
    ensures var s' := StartRun(s, r, true); Orphan(s', i) && i !in s'.past.logged
  {
    NotYetRead(net, s.stream, s.past, s.runs, i);
    LostRead(s, r);
    ReadMoves(s.stream);
  }

  /** The read hands out entry `i`, and its reply is lost. */
  predicate LostWhenRead(s: State, e: Event, i: nat) {
    e.Read? && e.replyLost && e.run !in s.runs && s.stream.Next() <= i < s.stream.Next() + |Delivery(s.stream)|
  }

  lemma OthersAddNoPending(net: NetLib, s: State, e: Event, i: nat)
    requires !e.Read? && i in Step(net, s, e).stream.pending
    ensures i in s.stream.pending
  {
  }

  lemma ReadAddsItsBatch(s: State, r: nat, replyLost: bool, i: nat)
    requires i in StartRun(s, r, replyLost).stream.pending && i !in s.stream.pending
    ensures r !in s.runs && s.stream.Next() <= i < s.stream.Next() + |Delivery(s.stream)|
  {
    if Delivery(s.stream) != [] {
      ReadMoves(s.stream);
    }
  }

  lemma OnlyReadsAddPending(net: NetLib, s: State, e: Event, i: nat)
    requires i in Step(net, s, e).stream.pending && i !in s.stream.pending
    ensures e.Read? && e.run !in s.runs && s.stream.Next() <= i < s.stream.Next() + |Delivery(s.stream)|
  {
    if e.Read? {
      ReadAddsItsBatch(s, e.run, e.replyLost, i);
    } else {
      OthersAddNoPending(net, s, e, i);
    }
  }

  lemma AnsweredReadHolds(s: State, r: nat, i: nat)
    requires r !in s.runs && s.stream.Next() <= i < s.stream.Next() + |Delivery(s.stream)|
    ensures var s' := StartRun(s, r, false); r in s'.runs && s'.runs[r].Holds(i)
  {
  }

  /** An entry that was not pending becomes an orphan exactly by a read whose reply is lost. */
  lemma OrphanedUnread(net: NetLib, s: State, e: Event, i: nat)
    requires Inv(net, s) && i !in s.stream.pending
    ensures Orphan(Step(net, s, e), i) <==> LostWhenRead(s, e, i)
  {
    if LostWhenRead(s, e, i) {
      LostReadOrphans(net, s, e.run, i);
    } else if i in Step(net, s, e).stream.pending {
      OnlyReadsAddPending(net, s, e, i);
      AnsweredReadHolds(s, e.run, i);
    }
  }

  // ---- Only orphans are stuck for good

  lemma AckFrees(net: NetLib, s: State, r: nat, i: nat) returns (es: seq<Event>)
    requires Inv(net, s) && r in s.runs && s.runs[r].Holds(i) && MayAck(s.runs[r])
    ensures i !in RunAll(net, s, es).stream.pending
  {
    es := [Ack(r, true)];
    RunOne(net, s, Ack(r, true));
    AckTakesAll(net, s, r, i);
  }

  lemma CommitFrees(net: NetLib, s: State, r: nat, i: nat) returns (es: seq<Event>)
    requires Inv(net, s) && r in s.runs && s.runs[r].Holds(i) && s.runs[r].phase == InTransaction
    ensures i !in RunAll(net, s, es).stream.pending
  {
    var commit := Commit(r, true, true);
    StepKeeps(net, s, commit);
    var rest := AckFrees(net, Step(net, s, commit), r, i);
    RunCons(net, s, commit, rest);
    es := [commit] + rest;
  }

  lemma CopyFrees(net: NetLib, s: State, r: nat, i: nat) returns (es: seq<Event>)
    requires Inv(net, s) && r in s.runs && s.runs[r].Holds(i) && Classified(s.runs[r]) && s.runs[r].records != []
    ensures i !in RunAll(net, s, es).stream.pending
  {
    var copy := Copy(r, true);
    StepKeeps(net, s, copy);
    var rest := CommitFrees(net, Step(net, s, copy), r, i);
    RunCons(net, s, copy, rest);
    es := [copy] + rest;
  }

  lemma LookGoesOn(net: NetLib, s: State, r: nat)
    requires Classifies(s, r)
    ensures var s' := Step(net, s, Look(r, false));
      && r in s'.runs && s'.runs[r].phase == Classifying
      && s'.runs[r].first == s.runs[r].first && s'.runs[r].messages == s.runs[r].messages
      && s'.runs[r].done == s.runs[r].done + 1
  {
  }

  lemma {:induction false} LookFrees(net: NetLib, s: State, r: nat, i: nat) returns (es: seq<Event>)
    requires Inv(net, s) && r in s.runs && s.runs[r].Holds(i) && s.runs[r].phase == Classifying
    ensures i !in RunAll(net, s, es).stream.pending
    decreases |s.runs[r].messages| - s.runs[r].done
  {
    if !Classified(s.runs[r]) {
      var look := Look(r, false);
      StepKeeps(net, s, look);
      LookGoesOn(net, s, r);
      var rest := LookFrees(net, Step(net, s, look), r, i);
      RunCons(net, s, look, rest);
      es := [look] + rest;
    } else if s.runs[r].records == [] {
      es := AckFrees(net, s, r, i);
    } else {
      es := CopyFrees(net, s, r, i);
    }
  }

  /** From a batch that is still being worked on, its entries can leave the pending list. */
  lemma HeldCanLeave(net: NetLib, s: State, r: nat, i: nat) returns (es: seq<Event>)
    requires Inv(net, s) && r in s.runs && s.runs[r].Holds(i)
    ensures i !in RunAll(net, s, es).stream.pending
  {
    match s.runs[r].phase {
      case Classifying => es := LookFrees(net, s, r, i);
      case InTransaction => es := CommitFrees(net, s, r, i);
      case Acking => es := AckFrees(net, s, r, i);
    }
  }

  /** A pending entry stays pending in every continuation exactly if it is in no batch. */
  lemma PendingForGood(net: NetLib, s: State, i: nat)
    requires Inv(net, s) && i in s.stream.pending
    ensures (forall es :: i in RunAll(net, s, es).stream.pending) <==> Orphan(s, i)
  {
    if Orphan(s, i) {
      forall es ensures i in RunAll(net, s, es).stream.pending {
        OrphansStay(net, s, es, i);
      }
    } else {
      var r :| r in s.runs && s.runs[r].Holds(i);
      var es := HeldCanLeave(net, s, r, i);
    }
  }

  // ---- Why entries are skipped

  /** Step `e` looks at entry `i`, which is not insertable at that moment. */
  predicate SkipsAt(s: State, e: Event, i: nat) {
    && e.Look? && Classifies(s, e.run)
    && i == s.runs[e.run].first + s.runs[e.run].done
    && i < |s.stream.added| && !Insertable(s.db.live, s.stream.added[i].body, e.fault)
  }

  lemma LookSkips(net: NetLib, s: State, r: nat, fault: bool, i: nat)
    requires r in s.runs ==> RunInv(net, s.stream, s.past, s.runs[r])
    ensures i in LookStep(net, s, r, fault).past.skipped <==> i in s.past.skipped || SkipsAt(s, Look(r, fault), i)
  {
    if Classifies(s, r) {
      var m := s.runs[r].messages[s.runs[r].done];
      RowIffInsertable(net, s.db.live, m.body, fault);
      assert m.id == s.runs[r].first + s.runs[r].done;
    }
  }

  lemma OthersSkipNothing(net: NetLib, s: State, e: Event)
    requires !e.Look?
    ensures Step(net, s, e).past.skipped == s.past.skipped
  {
  }

  lemma StepSkips(net: NetLib, s: State, e: Event, i: nat)
    requires Inv(net, s)
    ensures i in Step(net, s, e).past.skipped <==> i in s.past.skipped || SkipsAt(s, e, i)
  {
    if e.Look? {
      LookSkips(net, s, e.run, e.fault, i);
    } else {
      OthersSkipNothing(net, s, e);
    }
  }

  predicate SkipsAtStep(net: NetLib, es: seq<Event>, k: nat, i: nat) {
    k < |es| && SkipsAt(Reached(net, es[..k]), es[k], i)
  }

  /**
   * In every run: an entry is among the skipped ones exactly if some run looked at it while it was not
   * insertable, that is, it did not decode, or no live link had its slug, or its lookup failed.
   */
  lemma {:induction false} SkippedIffNotInsertable(net: NetLib, es: seq<Event>, i: nat)
    ensures i in Reached(net, es).past.skipped <==> exists k: nat :: SkipsAtStep(net, es, k, i)
    decreases |es|
  {
    if es != [] {
      var n := |es| - 1;
      var front := es[..n];
      assert es == front + [es[n]];
      SkippedIffNotInsertable(net, front, i);
      ReachedInv(net, front);
      RunAllAppend(net, INIT, front, [es[n]]);
      RunOne(net, Reached(net, front), es[n]);
      StepSkips(net, Reached(net, front), es[n], i);
      forall k: nat ensures SkipsAtStep(net, es, k, i) <==>
        SkipsAtStep(net, front, k, i) || (k == n && SkipsAt(Reached(net, front), es[n], i))
      {
        if k < n {
          assert front[..k] == es[..k];
        }
      }
      if i in Reached(net, es).past.skipped && !(exists k: nat :: SkipsAtStep(net, front, k, i)) {
        assert SkipsAtStep(net, es, n, i);
      }
    }
  }

  // ---- Runs in which no click of a link is lost to skipping

  /** No lookup fails, no link is deleted, clicks are of existing links, and foreign entries do not decode. */
  predicate Benign(s: State, e: Event) {
    match e
    case Look(_, fault) => !fault
    case LinkDeleted(_) => false
    case Offer(p) => Unpadded(p.slug) in s.db.live
    case ForeignXAdd(body, _) => !body.Decoded?
    case _ => true
  }

  predicate AllBenign(net: NetLib, s: State, es: seq<Event>)
    decreases |es|
  {
    es == [] || (Benign(s, es[0]) && AllBenign(net, Step(net, s, es[0]), es[1..]))
  }

  /** Every click and every decoded entry is of a live link, and no decoded entry is skipped. */
  ghost predicate Served(s: State) {
    && (forall c :: 0 <= c < |s.api.clicks| ==> Unpadded(s.api.clicks[c].slug) in s.db.live)
    && (forall i :: 0 <= i < |s.stream.added| && s.stream.added[i].body.Decoded? ==>
          Unpadded(s.stream.added[i].body.payload.slug) in s.db.live)
    && (forall i :: i in s.past.skipped ==> i < |s.stream.added| && !s.stream.added[i].body.Decoded?)
  }

  lemma BenignLook(net: NetLib, s: State, r: nat)
    requires Inv(net, s) && Served(s)
    ensures Served(LookStep(net, s, r, false))
  {
    forall i | i in LookStep(net, s, r, false).past.skipped
      ensures i < |s.stream.added| && !s.stream.added[i].body.Decoded?
    {
      if r in s.runs {
        assert RunInv(net, s.stream, s.past, s.runs[r]);
      }
      LookSkips(net, s, r, false, i);
    }
  }

  lemma BenignAppend(s: State, e: Entry, trim: nat)
    requires Served(s) && MayTrim(s.stream, trim)
    requires e.body.Decoded? ==> Unpadded(e.body.payload.slug) in s.db.live
    ensures Served(Append(s, e, trim))
  {
  }

  lemma BenignStep(net: NetLib, s: State, e: Event)
    requires Inv(net, s) && Served(s) && Benign(s, e)
    ensures Served(Step(net, s, e))
  {
    if e.Look? {
      BenignLook(net, s, e.run);
    } else if e.XAdd? {
      if e.worker in s.api.held && MayTrim(s.stream, e.trim) {
        BenignAppend(s, Entry(Decoded(s.api.clicks[s.api.held[e.worker]]), Some(s.api.held[e.worker])), e.trim);
      }
    } else if e.ForeignXAdd? && MayTrim(s.stream, e.trim) {
      BenignAppend(s, Entry(e.body, None), e.trim);
    }
  }

  lemma {:induction false} BenignRun(net: NetLib, s: State, es: seq<Event>)
    requires Inv(net, s) && Served(s) && AllBenign(net, s, es)
    ensures Served(RunAll(net, s, es))
    decreases |es|
  {
    if es != [] {
      StepKeeps(net, s, es[0]);
      BenignStep(net, s, es[0]);
      BenignRun(net, Step(net, s, es[0]), es[1..]);
    }
  }

  /** In a benign run no click is skipped, and so none is given up: skipped entries are foreign and do not decode. */
  lemma NoClickGivenUp(net: NetLib, es: seq<Event>, i: nat)
    requires AllBenign(net, INIT, es) && i in Reached(net, es).past.skipped
    ensures var added := Reached(net, es).stream.added;
      i < |added| && !added[i].body.Decoded? && added[i].click.None?
  {
    InitHolds(net);
    BenignRun(net, INIT, es);
    ReachedInv(net, es);
  }
}
