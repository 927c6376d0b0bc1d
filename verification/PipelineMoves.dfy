/** Where each step takes a click, when it is dropped or fails, and that the whole way to the log is open. */
module PipelineMoves {
  import opened Options
  import opened Slugs
  import opened Clicks
  import opened Store
  import opened Replies
  import opened Pipeline
  import opened PipelineInvariant
  import opened PipelineTheorems
  import ClickProcessing

  // ---- One step of the API process

  lemma OfferedIsAt(net: NetLib, s: State, p: Payload)
    ensures var s', c := Step(net, s, Offer(p)), |s.api.clicks|;
      && IsAt(s', c, if |s.api.channel| < 10000 then Queued else Dropped)
      && |s'.api.clicks| == c + 1 && s'.api.clicks[c] == p
  {
    assert |s.api.channel| < 10000 ==> (s.api.channel + [|s.api.clicks|])[|s.api.channel|] == |s.api.clicks|;
  }

  /** A free worker takes the oldest queued click; the others keep their order. */
  lemma TakenIsAt(net: NetLib, s: State, w: nat)
    requires Inv(net, s) && w < 64 && w !in s.api.held && s.api.channel != []
    ensures var s' := Step(net, s, Take(w));
      && IsAt(s', s.api.channel[0], Held) && !IsAt(s', s.api.channel[0], Queued)
      && s.api.channel == [s.api.channel[0]] + s'.api.channel
  {
    var s', c := Step(net, s, Take(w)), s.api.channel[0];
    assert s'.api.held[w] == c;
    assert c in s.api.channel;
    assert forall i :: 0 <= i < |s'.api.channel| ==> s'.api.channel[i] == s.api.channel[i + 1];
  }

  /** XADD puts the click at the end of the stream, to be read. */
  lemma AddedIsAt(net: NetLib, s: State, w: nat, trim: nat)
    requires Inv(net, s) && w in s.api.held && MayTrim(s.stream, trim)
    ensures var s', c := Step(net, s, XAdd(w, trim)), s.api.held[w];
      && s'.stream.added == s.stream.added + [Entry(Decoded(s.api.clicks[c]), Some(c))]
      && IsAt(s', c, Unread) && !IsAt(s', c, Held)
  {
    var s', c, n := Step(net, s, XAdd(w, trim)), s.api.held[w], |s.stream.added|;
    assert s'.stream.added[n] == Entry(Decoded(s.api.clicks[c]), Some(c));
    assert s'.stream.added[n] in s'.stream.added;
    assert s'.stream.Next() <= n;
  }

  /** Anybody else's entry goes there too, and is nobody's click. */
  lemma ForeignIsAdded(net: NetLib, s: State, body: Body, trim: nat)
    requires MayTrim(s.stream, trim)
    ensures Step(net, s, ForeignXAdd(body, trim)).stream.added == s.stream.added + [Entry(body, None)]
    ensures Sent(Step(net, s, ForeignXAdd(body, trim)).stream.added) == Sent(s.stream.added)
  {
    SentGrows(s.stream.added, Entry(body, None));
  }

  /** A worker that returns without its click in the stream has failed it. */
  lemma ReleasedIsAt(net: NetLib, s: State, w: nat)
    requires Inv(net, s) && w in s.api.held
    ensures var s', c := Step(net, s, Release(w)), s.api.held[w];
      && (IsAt(s, c, Held) ==> IsAt(s', c, Failed)) && w !in s'.api.held
      && (!IsAt(s, c, Held) ==> s'.api.failed == s.api.failed)
  {
    var c := s.api.held[w];
    assert c in set v | v in s.api.held :: s.api.held[v];
  }

  /** The clicks in the channel and with the workers do not survive the process. */
  lemma CrashedIsAt(net: NetLib, s: State, c: nat)
    requires IsAt(s, c, Queued) || IsAt(s, c, Held)
    ensures var s' := Step(net, s, ApiCrash);
      IsAt(s', c, Failed) && s'.api.channel == [] && s'.api.held == map[]
  {
  }

  /** XADD trims only what is beyond the newest 100000 entries. */
  lemma TrimKeepsTheNewest(s: State, e: Entry, trim: nat)
    requires MayTrim(s.stream, trim)
    ensures var q, q' := s.stream, Append(s, e, trim).stream;
      && |q'.added| == |q.added| + 1 && q'.added[|q.added|] == e && q'.trimmed == q.trimmed + trim
      && (trim > 0 ==> |q'.added| - q'.trimmed >= 100000)
      && forall i :: i in Append(s, e, trim).past.lost <==>
           i in s.past.lost || (q.Cursor() <= i && q.trimmed <= i < q'.trimmed)
  {
  }

  lemma MayTrimDownToTheLimit(q: Stream, trim: nat)
    requires |q.added| + 1 - q.trimmed - trim >= 100000
    ensures MayTrim(q, trim)
  {
  }

  // ---- One step of the links

  /** A deleted link is no longer found under its slug; every other slug leads where it did. */
  lemma DeletedIsNotFound(net: NetLib, s: State, slug: string)
    ensures var live' := Step(net, s, LinkDeleted(slug)).db.live;
      && slug !in live'
      && forall t :: t != slug ==> (t in live' <==> t in s.db.live) && (t in live' ==> live'[t] == s.db.live[t])
  {
  }

  /** A created link is found under its slug, unless a link already had it. */
  lemma CreatedIsFound(net: NetLib, s: State, slug: string, id: nat)
    ensures var live' := Step(net, s, LinkCreated(slug, id)).db.live;
      && (Canonical(slug) && slug !in s.past.ever ==> slug in live' && live'[slug] == id)
      && (slug in s.past.ever ==> live' == s.db.live)
      && forall t :: t != slug ==> (t in live' <==> t in s.db.live) && (t in live' ==> live'[t] == s.db.live[t])
  {
  }

  // ---- Dropped and failed clicks, over whole runs

  /** Step `e` offers click `c` to a full channel. */
  predicate DropsAt(s: State, e: Event, c: nat) {
    e.Offer? && c == |s.api.clicks| && |s.api.channel| >= 10000
  }

  /** Step `e` takes click `c` away before its XADD: its worker returns, or the process dies. */
  predicate FailsAt(s: State, e: Event, c: nat) {
    && c !in Sent(s.stream.added)
    && ((e.Release? && e.worker in s.api.held && s.api.held[e.worker] == c)
        || (e.ApiCrash? && (c in s.api.channel || exists w :: w in s.api.held && s.api.held[w] == c)))
  }

  lemma StepDrops(net: NetLib, s: State, e: Event, c: nat)
    ensures c in Step(net, s, e).api.dropped <==> c in s.api.dropped || DropsAt(s, e, c)
  {
  }

  lemma StepFails(net: NetLib, s: State, e: Event, c: nat)
    requires Inv(net, s)
    ensures c in Step(net, s, e).api.failed <==> c in s.api.failed || FailsAt(s, e, c)
  {
  }

  predicate DropsAtStep(net: NetLib, es: seq<Event>, k: nat, c: nat) {
    k < |es| && DropsAt(Reached(net, es[..k]), es[k], c)
  }

  predicate FailsAtStep(net: NetLib, es: seq<Event>, k: nat, c: nat) {
    k < |es| && FailsAt(Reached(net, es[..k]), es[k], c)
  }

  lemma LastStep(net: NetLib, es: seq<Event>)
    requires es != []
    ensures var n := |es| - 1;
      Reached(net, es) == Step(net, Reached(net, es[..n]), es[n])
  {
    var n := |es| - 1;
    assert es == es[..n] + [es[n]];
    RunAllAppend(net, INIT, es[..n], [es[n]]);
    RunOne(net, Reached(net, es[..n]), es[n]);
  }

  /** In every run a click was dropped exactly if it was offered while the channel held 10000. */
  lemma {:induction false} DroppedIffFull(net: NetLib, es: seq<Event>, c: nat)
    ensures c in Reached(net, es).api.dropped <==> exists k: nat :: DropsAtStep(net, es, k, c)
    decreases |es|
  {
    if es != [] {
      var n, front := |es| - 1, es[..|es| - 1];
      DroppedIffFull(net, front, c);
      LastStep(net, es);
      StepDrops(net, Reached(net, front), es[n], c);
      forall k: nat ensures DropsAtStep(net, es, k, c) <==>
        DropsAtStep(net, front, k, c) || (k == n && DropsAt(Reached(net, front), es[n], c))
      {
        if k < n {
          assert front[..k] == es[..k];
        }
      }
      if c in Reached(net, es).api.dropped && !(exists k: nat :: DropsAtStep(net, front, k, c)) {
        assert DropsAtStep(net, es, n, c);
      }
    }
  }

  /** In every run a click failed exactly if its worker returned, or the process died, before its XADD took effect. */
  lemma {:induction false} FailedIffUnsent(net: NetLib, es: seq<Event>, c: nat)
    ensures c in Reached(net, es).api.failed <==> exists k: nat :: FailsAtStep(net, es, k, c)
    decreases |es|
  {
    if es != [] {
      var n, front := |es| - 1, es[..|es| - 1];
      FailedIffUnsent(net, front, c);
      LastStep(net, es);
      ReachedInv(net, front);
      StepFails(net, Reached(net, front), es[n], c);
      forall k: nat ensures FailsAtStep(net, es, k, c) <==>
        FailsAtStep(net, front, k, c) || (k == n && FailsAt(Reached(net, front), es[n], c))
      {
        if k < n {
          assert front[..k] == es[..k];
        }
      }
      if c in Reached(net, es).api.failed && !(exists k: nat :: FailsAtStep(net, front, k, c)) {
        assert FailsAtStep(net, es, n, c);
      }
    }
  }

  // ---- The whole way

  const ALL_FINE := ClickProcessing.Outcomes(Fine, [], true, true, Fine, Fine)

  /** The click's way into the stream, past an idle worker. */
  function IntoTheStream(p: Payload, w: nat): seq<Event> {
    [Offer(p), Take(w), XAdd(w, 0), Release(w)]
  }

  lemma OfferedAlone(net: NetLib, s: State, p: Payload)
    requires s.api.channel == []
    ensures var a, a' := s.api, Step(net, s, Offer(p)).api;
      && a'.channel == [|a.clicks|] && a'.clicks == a.clicks + [p] && a'.held == a.held
      && Step(net, s, Offer(p)) == s.(api := a')
  {
  }

  lemma TakenAlone(net: NetLib, s: State, w: nat, c: nat)
    requires s.api.channel == [c] && w < 64 && w !in s.api.held
    ensures var a, a' := s.api, Step(net, s, Take(w)).api;
      && w in a'.held && a'.held[w] == c && a'.clicks == a.clicks
      && Step(net, s, Take(w)) == s.(api := a')
  {
  }

  lemma AddedAlone(net: NetLib, s: State, w: nat, p: Payload)
    requires w in s.api.held && s.api.held[w] < |s.api.clicks| && s.api.clicks[s.api.held[w]] == p
    ensures var q, s' := s.stream, Step(net, s, XAdd(w, 0));
      && s'.stream == q.(added := q.added + [Entry(Decoded(p), Some(s.api.held[w]))])
      && s'.db == s.db && s'.runs == s.runs
  {
  }

  lemma ReleasedAlone(net: NetLib, s: State, w: nat)
    ensures var s' := Step(net, s, Release(w));
      s'.stream == s.stream && s'.db == s.db && s'.runs == s.runs
  {
  }

  lemma FourSteps(net: NetLib, s: State, p: Payload, w: nat)
    ensures RunAll(net, s, IntoTheStream(p, w))
      == Step(net, Step(net, Step(net, Step(net, s, Offer(p)), Take(w)), XAdd(w, 0)), Release(w))
  {
    var s1 := Step(net, s, Offer(p));
    var s2 := Step(net, s1, Take(w));
    assert IntoTheStream(p, w) == [Offer(p)] + ([Take(w)] + ([XAdd(w, 0)] + [Release(w)]));
    RunCons(net, s, Offer(p), [Take(w)] + ([XAdd(w, 0)] + [Release(w)]));
    RunCons(net, s1, Take(w), [XAdd(w, 0)] + [Release(w)]);
    RunCons(net, s2, XAdd(w, 0), [Release(w)]);
    RunOne(net, Step(net, s2, XAdd(w, 0)), Release(w));
  }

  lemma ReachesTheStream(net: NetLib, s: State, p: Payload, w: nat)
    requires s.api.channel == [] && w < 64 && w !in s.api.held
    ensures var s', c := RunAll(net, s, IntoTheStream(p, w)), |s.api.clicks|;
      && s'.stream == s.stream.(added := s.stream.added + [Entry(Decoded(p), Some(c))])
      && s'.db == s.db && s'.runs == s.runs
  {
    var s1 := Step(net, s, Offer(p));
    var s2 := Step(net, s1, Take(w));
    FourSteps(net, s, p, w);
    OfferedAlone(net, s, p);
    TakenAlone(net, s1, w, |s.api.clicks|);
    AddedAlone(net, s2, w, p);
    ReleasedAlone(net, Step(net, s2, XAdd(w, 0)), w);
  }

  lemma LastRecord(net: NetLib, live: map<string, nat>, ms: seq<Message>, p: Payload)
    requires ms != [] && ms[|ms| - 1].body == Decoded(p) && Unpadded(p.slug) in live
    ensures var records := Records(net, ms, Answers(live, ms, []));
      records != [] && records[|records| - 1] == RecordOf(net, p, live[Unpadded(p.slug)])
  {
  }

  lemma BatchLogsTheLast(net: NetLib, q: Stream, d: Db, p: Payload)
    requires q.cursor.Some? && q.Next() < |q.added| <= q.Next() + 1000
    requires q.added[|q.added| - 1].body == Decoded(p) && Unpadded(p.slug) in d.live
    ensures var log := ClickProcessing.BatchEffect(net, q, d, ALL_FINE).db.log;
      log != [] && log[|log| - 1] == RowOf(net, p, d.live[Unpadded(p.slug)])
  {
    var ms := Delivery(q);
    DeliveryLength(q);
    LastRecord(net, d.live, ms, p);
    var records := Records(net, ms, Answers(d.live, ms, []));
    assert RowsFor(records)[|records| - 1] == RowFor(records[|records| - 1]);
  }

  lemma BatchGoesThrough(net: NetLib, s: State, p: Payload, r: nat) returns (es: seq<Event>)
    requires r !in s.runs && s.stream.cursor.Some? && s.stream.Next() < |s.stream.added| <= s.stream.Next() + 1000
    requires s.stream.added[|s.stream.added| - 1].body == Decoded(p) && Unpadded(p.slug) in s.db.live
    ensures var log := RunAll(net, s, es).db.log;
      log != [] && log[|log| - 1] == RowOf(net, p, s.db.live[Unpadded(p.slug)])
  {
    BatchLogsTheLast(net, s.stream, s.db, p);
    ClickProcessing.RunRefinesSteps(net, s, r, ALL_FINE);
    es := ClickProcessing.Steps(net, s.stream, s.db, r, ALL_FINE);
  }

  lemma GroupIsEnsured(net: NetLib, s: State)
    ensures var s' := Step(net, s, EnsureGroup);
      s'.stream == AfterEnsureGroup(s.stream) && s'.api == s.api && s'.db == s.db && s'.runs == s.runs
  {
  }

  /**
   * The way is open: whatever happened before, with an idle worker, an empty channel and an unread
   * backlog below 1000, a click of a live link can be taken all the way, and its row is the last of the
   * log. The group is created on the way if there is none.
   */
  lemma ClickCanBeLogged(net: NetLib, es: seq<Event>, p: Payload, w: nat, r: nat) returns (fs: seq<Event>)
    requires var s := Reached(net, es);
      && s.api.channel == [] && w < 64 && w !in s.api.held && r !in s.runs
      && |s.stream.added| - s.stream.Next() < 1000 && Unpadded(p.slug) in s.db.live
    ensures var s, log := Reached(net, es), Reached(net, es + fs).db.log;
      log != [] && log[|log| - 1] == RowOf(net, p, s.db.live[Unpadded(p.slug)])
  {
    var s := Reached(net, es);
    var s0 := Step(net, s, EnsureGroup);
    ReachedInv(net, es);
    GroupIsEnsured(net, s);
    GroupStartsAtTheBeginning(s.stream);
    ReachesTheStream(net, s0, p, w);
    var batch := BatchGoesThrough(net, RunAll(net, s0, IntoTheStream(p, w)), p, r);
    fs := [EnsureGroup] + (IntoTheStream(p, w) + batch);
    RunAllAppend(net, s0, IntoTheStream(p, w), batch);
    RunCons(net, s, EnsureGroup, IntoTheStream(p, w) + batch);
    RunAllAppend(net, INIT, es, fs);
  }
}
