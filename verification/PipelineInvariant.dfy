/** What every step of the pipeline keeps. */
module PipelineInvariant {
  import opened Options
  import opened Slugs
  import opened Clicks
  import opened Store
  import opened Pipeline

  ghost predicate Distinct<T(!new)>(q: seq<T>) {
    forall i, j :: 0 <= i < j < |q| ==> q[i] != q[j]
  }

  /** Every offered click is in exactly one place on the way to the stream. */
  ghost predicate ClicksInv(a: Api, sent: set<nat>) {
    && |a.channel| <= CLICK_CHAN_SIZE
    && Distinct(a.channel)
    && (forall w, v :: w in a.held && v in a.held && w != v ==> a.held[w] != a.held[v])
    && (forall w :: w in a.held ==> w < CLICK_WORKER_COUNT && a.held[w] < |a.clicks|)
    && (forall c :: c in a.channel || c in a.dropped || c in a.failed || c in sent ==> c < |a.clicks|)
    && (forall w :: w in a.held ==> a.held[w] !in a.channel && a.held[w] !in a.dropped && a.held[w] !in a.failed)
    && (forall c :: c in a.channel ==> c !in a.dropped && c !in a.failed && c !in sent)
    && (forall c :: c in a.dropped ==> c !in a.failed && c !in sent)
    && (forall c :: c in a.failed ==> c !in sent)
    && (forall c: nat :: c < |a.clicks| ==>
          c in a.dropped || c in a.failed || c in sent || c in a.channel || exists w :: w in a.held && a.held[w] == c)
  }

  /** An entry that carries a click carries that click's payload. */
  ghost predicate EntriesInv(clicks: seq<Payload>, added: seq<Entry>) {
    forall i :: 0 <= i < |added| && added[i].click.Some? ==>
      added[i].click.value < |clicks| && added[i].body == Decoded(clicks[added[i].click.value])
  }

  /** Where each stream entry is: the last line is ack safety. */
  ghost predicate StreamInv(q: Stream, h: History) {
    && q.trimmed <= |q.added|
    && q.Cursor() <= |q.added|
    && (forall i :: i in h.lost ==> i < q.trimmed)
    && (forall i :: q.Cursor() <= i < q.trimmed ==> i in h.lost)
    && (forall i :: i in q.pending ==> i < q.Cursor() && i !in h.lost)
    && (forall i :: i in h.logged ==> i < q.Cursor() && i !in h.lost && i !in h.skipped)
    && (forall i :: i in h.skipped ==> i < q.Cursor() && i !in h.lost)
    && (forall i: nat :: i < q.Cursor() ==> i in h.lost || i in q.pending || i in h.logged || i in h.skipped)
  }

  /** `c` is the record entry `i` should yield: its decoded click, with the link its slug was given to. */
  ghost predicate RecordFrom(net: NetLib, added: seq<Entry>, ever: map<string, nat>, i: nat, c: ClickRecord) {
    && i < |added|
    && added[i].body.Decoded?
    && var p := added[i].body.payload;
       && Unpadded(p.slug) in ever
       && c == RecordOf(net, p, ever[Unpadded(p.slug)])
  }

  ghost predicate RowFrom(net: NetLib, added: seq<Entry>, ever: map<string, nat>, i: nat, row: LogRow) {
    && i < |added|
    && added[i].body.Decoded?
    && var p := added[i].body.payload;
       && Unpadded(p.slug) in ever
       && row == RowOf(net, p, ever[Unpadded(p.slug)])
  }

  /** The log: one row per logged entry, each row being what its entry should have produced. */
  ghost predicate LogInv(net: NetLib, added: seq<Entry>, log: seq<LogRow>, h: History) {
    && |h.source| == |log|
    && Distinct(h.source)
    && (forall i :: i in h.logged <==> i in h.source)
    && (forall i :: 0 <= i < |h.source| ==> RowFrom(net, added, h.ever, h.source[i], log[i]))
  }

  ghost predicate LinksInv(live: map<string, nat>, ever: map<string, nat>) {
    forall k :: k in live ==> k in ever && live[k] == ever[k]
  }

  ghost predicate RowIdsInv(h: History, run: Run) {
    && (forall j :: 0 <= j < |run.rowIds| ==>
          run.first <= run.rowIds[j] < run.first + run.done && run.rowIds[j] !in h.skipped)
    && (forall j, k :: 0 <= j < k < |run.rowIds| ==> run.rowIds[j] < run.rowIds[k])
    && (forall j :: 0 <= j < |run.rowIds| && run.phase == Acking ==> run.rowIds[j] in h.logged)
  }

  /** The batch of a run is its own: handed out once, and not logged before this run commits. */
  ghost predicate BatchInv(q: Stream, h: History, run: Run) {
    && run.done <= |run.messages|
    && run.End() <= q.Cursor() <= |q.added|
    && (run.phase != Classifying ==> run.done == |run.messages|)
    && (forall j :: 0 <= j < |run.messages| ==>
          run.messages[j].id == run.first + j && run.messages[j].body == q.added[run.first + j].body)
    && (forall i :: run.first <= i < run.End() ==> i !in h.lost)
    && (forall i :: run.first <= i < run.End() ==> i in q.pending)
    && (forall i :: run.first <= i < run.End() && run.phase != Acking ==> i !in h.logged)
    && (forall i :: run.first + run.done <= i < run.End() ==> i !in h.skipped)
    && (forall i :: run.first <= i < run.first + run.done ==> i in h.skipped || i in run.rowIds)
    && RowIdsInv(h, run)
  }

  ghost predicate RecordsInv(net: NetLib, added: seq<Entry>, ever: map<string, nat>, run: Run) {
    && |run.records| == |run.rowIds|
    && forall j :: 0 <= j < |run.records| ==> RecordFrom(net, added, ever, run.rowIds[j], run.records[j])
  }

  ghost predicate RunInv(net: NetLib, q: Stream, h: History, run: Run) {
    BatchInv(q, h, run) && RecordsInv(net, q.added, h.ever, run)
  }

  /** No entry is in two batches. */
  ghost predicate Disjoint(runs: map<nat, Run>) {
    forall r, q :: r in runs && q in runs && r != q ==> runs[r].End() <= runs[q].first || runs[q].End() <= runs[r].first
  }

  ghost predicate RunsInv(net: NetLib, q: Stream, h: History, runs: map<nat, Run>) {
    Disjoint(runs) && forall r :: r in runs ==> RunInv(net, q, h, runs[r])
  }

  ghost predicate Inv(net: NetLib, s: State) {
    && ClicksInv(s.api, Sent(s.stream.added))
    && EntriesInv(s.api.clicks, s.stream.added)
    && StreamInv(s.stream, s.past)
    && LogInv(net, s.stream.added, s.db.log, s.past)
    && LinksInv(s.db.live, s.past.ever)
    && RunsInv(net, s.stream, s.past, s.runs)
  }

  // ---- Growth of stream and links leaves log and runs as they were

  ghost predicate Grows(added: seq<Entry>, ever: map<string, nat>, added': seq<Entry>, ever': map<string, nat>) {
    && |added| <= |added'|
    && (forall i :: 0 <= i < |added| ==> added'[i] == added[i])
    && (forall k :: k in ever ==> k in ever' && ever'[k] == ever[k])
  }

  lemma GrowthKeepsLog(net: NetLib, added: seq<Entry>, added': seq<Entry>, log: seq<LogRow>, h: History, h': History)
    requires LogInv(net, added, log, h)
    requires Grows(added, h.ever, added', h'.ever) && h'.source == h.source && h'.logged == h.logged
    ensures LogInv(net, added', log, h')
  {
    forall i | 0 <= i < |h.source| ensures RowFrom(net, added', h'.ever, h.source[i], log[i]) {
      assert RowFrom(net, added, h.ever, h.source[i], log[i]);
    }
  }

  lemma GrowthKeepsRecords(
      net: NetLib, added: seq<Entry>, ever: map<string, nat>, added': seq<Entry>, ever': map<string, nat>, run: Run)
    requires RecordsInv(net, added, ever, run)
    requires Grows(added, ever, added', ever')
    ensures RecordsInv(net, added', ever', run)
  {
    forall j | 0 <= j < |run.records| ensures RecordFrom(net, added', ever', run.rowIds[j], run.records[j]) {
      assert RecordFrom(net, added, ever, run.rowIds[j], run.records[j]);
    }
  }

  /** Nothing that concerns the entries of `run` differs between the two situations. */
  ghost predicate Untouched(q: Stream, h: History, q': Stream, h': History, run: Run) {
    && Grows(q.added, h.ever, q'.added, h'.ever)
    && q.Cursor() <= q'.Cursor() <= |q'.added|
    && (forall i :: run.first <= i < run.End() ==>
          && (i in q.pending ==> i in q'.pending)
          && (i in h.logged <==> i in h'.logged)
          && (i in h.skipped <==> i in h'.skipped)
          && (i in h'.lost ==> i in h.lost))
  }

  lemma UntouchedKeeps(net: NetLib, q: Stream, h: History, q': Stream, h': History, run: Run)
    requires RunInv(net, q, h, run)
    requires Untouched(q, h, q', h', run)
    ensures RunInv(net, q', h', run)
  {
    GrowthKeepsRecords(net, q.added, h.ever, q'.added, h'.ever, run);
    assert BatchInv(q, h, run);
    assert RowIdsInv(h', run) by {
      assert RowIdsInv(h, run);
    }
  }

  lemma GrowthKeepsRuns(net: NetLib, q: Stream, h: History, q': Stream, h': History, runs: map<nat, Run>)
    requires RunsInv(net, q, h, runs)
    requires Grows(q.added, h.ever, q'.added, h'.ever)
    requires q.Cursor() <= q'.Cursor() <= |q'.added| && q'.pending == q.pending
    requires h'.logged == h.logged && h'.skipped == h.skipped
    requires forall i :: i in h'.lost && i < q.Cursor() ==> i in h.lost
    ensures RunsInv(net, q', h', runs)
  {
    forall r | r in runs ensures RunInv(net, q', h', runs[r]) {
      assert RunInv(net, q, h, runs[r]);
      UntouchedKeeps(net, q, h, q', h', runs[r]);
    }
  }

  // ---- Appending an entry

  lemma SentGrows(added: seq<Entry>, e: Entry)
    ensures Sent(added + [e]) == Sent(added) + if e.click.Some? then {e.click.value} else {}
  {
    forall c ensures c in Sent(added + [e]) <==> c in Sent(added) || e.click == Some(c) {
      if c in Sent(added) {
        var x :| x in added && x.click == Some(c);
        assert x in added + [e];
      }
      if e.click == Some(c) {
        assert e in added + [e];
      }
    }
  }

  lemma AppendKeepsStream(s: State, e: Entry, trim: nat)
    requires StreamInv(s.stream, s.past) && MayTrim(s.stream, trim)
    ensures StreamInv(Append(s, e, trim).stream, Append(s, e, trim).past)
  {
  }

  lemma AppendKeepsClicks(a: Api, sent: set<nat>, e: Entry)
    requires ClicksInv(a, sent)
    requires e.click.Some? ==> exists w :: w in a.held && a.held[w] == e.click.value
    ensures ClicksInv(a, sent + if e.click.Some? then {e.click.value} else {})
  {
  }

  lemma AppendKeeps(net: NetLib, s: State, e: Entry, trim: nat)
    requires Inv(net, s) && MayTrim(s.stream, trim)
    requires e.click.Some? ==>
      && (exists w :: w in s.api.held && s.api.held[w] == e.click.value)
      && e.click.value < |s.api.clicks| && e.body == Decoded(s.api.clicks[e.click.value])
    ensures Inv(net, Append(s, e, trim))
  {
    var s' := Append(s, e, trim);
    SentGrows(s.stream.added, e);
    AppendKeepsClicks(s.api, Sent(s.stream.added), e);
    AppendKeepsStream(s, e, trim);
    GrowthKeepsLog(net, s.stream.added, s'.stream.added, s.db.log, s.past, s'.past);
    GrowthKeepsRuns(net, s.stream, s.past, s'.stream, s'.past, s.runs);
  }

  // ---- Steps of the API process

  lemma OfferKeeps(a: Api, sent: set<nat>, p: Payload)
    requires ClicksInv(a, sent)
    ensures ClicksInv(OfferTo(a, p), sent)
  {
    assert |a.clicks| !in a.channel;
  }

  lemma TakeKeeps(a: Api, sent: set<nat>, w: nat)
    requires ClicksInv(a, sent)
    ensures ClicksInv(TakeBy(a, w), sent)
  {
    var a' := TakeBy(a, w);
    if a' != a {
      var c := a.channel[0];
      assert a.channel == [c] + a'.channel;
      assert c in a.channel && c !in a'.channel;
      assert forall d :: d in a'.channel ==> d in a.channel;
      assert a'.held[w] == c;
      assert forall v :: v in a.held ==> v in a'.held && a'.held[v] == a.held[v];
    }
  }

  lemma ReleaseKeeps(a: Api, sent: set<nat>, w: nat)
    requires ClicksInv(a, sent)
    ensures ClicksInv(ReleaseBy(a, sent, w), sent)
  {
    var a' := ReleaseBy(a, sent, w);
    assert forall v :: v in a'.held ==> v in a.held && a'.held[v] == a.held[v];
    assert forall v :: v in a.held && v != w ==> v in a'.held;
  }

  lemma RestartKeeps(a: Api, sent: set<nat>)
    requires ClicksInv(a, sent)
    ensures ClicksInv(Restarted(a, sent), sent)
  {
  }

  lemma ApiStepKeeps(net: NetLib, s: State, e: Event)
    requires Inv(net, s)
    requires e.Offer? || e.Take? || e.Release? || e.ApiCrash?
    ensures Inv(net, Step(net, s, e))
  {
    var sent := Sent(s.stream.added);
    match e {
      case Offer(p) => OfferKeeps(s.api, sent, p);
      case Take(w) => TakeKeeps(s.api, sent, w);
      case Release(w) => ReleaseKeeps(s.api, sent, w);
      case ApiCrash => RestartKeeps(s.api, sent);
    }
  }

  // ---- Links and the group

  lemma EnsureGroupKeeps(net: NetLib, s: State)
    requires Inv(net, s)
    ensures Inv(net, s.(stream := AfterEnsureGroup(s.stream)))
  {
    GrowthKeepsRuns(net, s.stream, s.past, AfterEnsureGroup(s.stream), s.past, s.runs);
  }

  lemma LinksChangeKeeps(net: NetLib, s: State, live: map<string, nat>, ever: map<string, nat>)
    requires Inv(net, s) && LinksInv(live, ever)
    requires forall k :: k in s.past.ever ==> k in ever && ever[k] == s.past.ever[k]
    ensures Inv(net, s.(db := s.db.(live := live), past := s.past.(ever := ever)))
  {
    var h := s.past.(ever := ever);
    GrowthKeepsLog(net, s.stream.added, s.stream.added, s.db.log, s.past, h);
    GrowthKeepsRuns(net, s.stream, s.past, s.stream, h, s.runs);
  }
}
