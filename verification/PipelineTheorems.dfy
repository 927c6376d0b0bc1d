/** What holds in every state the whole system can reach, whatever happened on the way. */
module PipelineTheorems {
  import opened Options
  import opened Ranges
  import opened Slugs
  import opened Clicks
  import opened Store
  import opened Pipeline
  import opened PipelineInvariant
  import opened PipelineSteps

  function Reached(net: NetLib, es: seq<Event>): State {
    RunAll(net, INIT, es)
  }

  lemma ReachedInv(net: NetLib, es: seq<Event>)
    ensures Inv(net, Reached(net, es))
  {
    InitHolds(net);
    EveryRunKeeps(net, INIT, es);
  }

  // ---- The places of a stream entry

  function Undelivered(q: Stream): set<nat> {
    Range(q.Next(), |q.added|)
  }

  /** Delivered, but neither logged nor given up: pending entries without a committed row. */
  function Stuck(s: State): set<nat> {
    s.stream.pending - s.past.logged
  }

  function GivenUp(s: State): set<nat> {
    s.past.skipped - s.stream.pending
  }

  function Elements(q: seq<nat>): set<nat> {
    set x | x in q
  }

  // ---- The places of a click that is not in the stream

  function InChannel(a: Api): set<nat> {
    Elements(a.channel)
  }

  function HeldUnsent(s: State): set<nat> {
    (set w | w in s.api.held :: s.api.held[w]) - Sent(s.stream.added)
  }

  /** No stream entry is logged twice, and each row is the one its entry stands for. */
  lemma AtMostOnceLogging(net: NetLib, es: seq<Event>)
    ensures var s := Reached(net, es);
      && |s.past.source| == |s.db.log|
      && (forall i, j :: 0 <= i < j < |s.db.log| ==> s.past.source[i] != s.past.source[j])
      && (forall i :: 0 <= i < |s.db.log| ==>
            RowFrom(net, s.stream.added, s.past.ever, s.past.source[i], s.db.log[i]))
  {
    ReachedInv(net, es);
  }

  /** One stream entry per click at most: no XADD was repeated. */
  ghost predicate OneEntryPerClick(added: seq<Entry>) {
    forall i, j :: 0 <= i < j < |added| && added[i].click.Some? ==> added[i].click != added[j].click
  }

  /** The click that row `i` of the log came from, if it came from a redirect. */
  function ClickOf(s: State, i: nat): Option<nat> {
    if i < |s.past.source| && s.past.source[i] < |s.stream.added| then s.stream.added[s.past.source[i]].click else None
  }

  /** End to end: without repeated XADDs each click is logged at most once, with exactly the data of its redirect. */
  lemma ClickLoggedAtMostOnce(net: NetLib, es: seq<Event>)
    requires OneEntryPerClick(Reached(net, es).stream.added)
    ensures var s := Reached(net, es);
      && (forall i, j :: 0 <= i < j < |s.db.log| && ClickOf(s, i).Some? ==> ClickOf(s, i) != ClickOf(s, j))
      && (forall i :: 0 <= i < |s.db.log| && ClickOf(s, i).Some? ==>
            && ClickOf(s, i).value < |s.api.clicks|
            && var p := s.api.clicks[ClickOf(s, i).value];
               Unpadded(p.slug) in s.past.ever && s.db.log[i] == RowOf(net, p, s.past.ever[Unpadded(p.slug)]))
  {
    ReachedInv(net, es);
    var s := Reached(net, es);
    forall i | 0 <= i < |s.db.log| && ClickOf(s, i).Some?
      ensures RowFrom(net, s.stream.added, s.past.ever, s.past.source[i], s.db.log[i])
    {
    }
    forall i, j | 0 <= i < j < |s.db.log| && ClickOf(s, i).Some? ensures ClickOf(s, i) != ClickOf(s, j) {
      assert s.past.source[i] != s.past.source[j];
    }
  }

  /** An entry left the pending list only if its row is committed or it was classified as skippable. */
  lemma AckSafety(net: NetLib, es: seq<Event>, i: nat)
    requires var s := Reached(net, es);
      i < s.stream.Cursor() && i !in s.past.lost && i !in s.stream.pending
    ensures var s := Reached(net, es); i in s.past.source || i in s.past.skipped
  {
    ReachedInv(net, es);
  }

  /** Each number below `n`, and nothing else, is in exactly one of the five sets. */
  ghost predicate Partition(n: nat, a: set<nat>, b: set<nat>, c: set<nat>, d: set<nat>, e: set<nat>) {
    && (forall i: nat :: i < n ==> i in a || i in b || i in c || i in d || i in e)
    && (forall i :: i in a ==> i < n && i !in b && i !in c && i !in d && i !in e)
    && (forall i :: i in b ==> i < n && i !in c && i !in d && i !in e)
    && (forall i :: i in c ==> i < n && i !in d && i !in e)
    && (forall i :: i in d ==> i < n && i !in e)
    && (forall i :: i in e ==> i < n)
  }

  lemma DisjointUnion(a: set<nat>, b: set<nat>)
    requires forall i :: i in a ==> i !in b
    ensures |a + b| == |a| + |b|
  {
    assert a * b == {};
  }

  lemma PartitionCounts(n: nat, a: set<nat>, b: set<nat>, c: set<nat>, d: set<nat>, e: set<nat>)
    requires Partition(n, a, b, c, d, e)
    ensures n == |a| + |b| + |c| + |d| + |e|
  {
    DisjointUnion(a, b);
    DisjointUnion(a + b, c);
    DisjointUnion(a + b + c, d);
    DisjointUnion(a + b + c + d, e);
    assert a + b + c + d + e == Range(0, n);
  }

  lemma {:induction false} DistinctSize(q: seq<nat>)
    requires Distinct(q)
    ensures |Elements(q)| == |q|
  {
    if q != [] {
      var n := |q| - 1;
      DistinctSize(q[..n]);
      assert q == q[..n] + [q[n]];
      assert q[n] !in Elements(q[..n]);
      assert Elements(q) == Elements(q[..n]) + {q[n]};
    }
  }

  /** Every stream entry is in exactly one place. */
  lemma EntryPlaces(net: NetLib, es: seq<Event>)
    ensures var s := Reached(net, es);
      Partition(|s.stream.added|, Undelivered(s.stream), s.past.lost, Stuck(s), GivenUp(s), s.past.logged)
  {
    ReachedInv(net, es);
    var s := Reached(net, es);
    assert StreamInv(s.stream, s.past);
  }

  /** Every offered click is dropped, queued, held, failed or sent, and only one of these. */
  lemma ClickPlaces(net: NetLib, es: seq<Event>)
    ensures var s := Reached(net, es);
      Partition(|s.api.clicks|, s.api.dropped, InChannel(s.api), HeldUnsent(s), s.api.failed, Sent(s.stream.added))
  {
    ReachedInv(net, es);
    var s := Reached(net, es);
    assert ClicksInv(s.api, Sent(s.stream.added));
  }

  lemma {:induction false} SentSize(added: seq<Entry>)
    requires OneEntryPerClick(added)
    requires forall i :: 0 <= i < |added| ==> added[i].click.Some?
    ensures |Sent(added)| == |added|
  {
    if added != [] {
      var n := |added| - 1;
      SentSize(added[..n]);
      assert added == added[..n] + [added[n]];
      SentGrows(added[..n], added[n]);
    }
  }

  lemma ClickCounts(net: NetLib, es: seq<Event>)
    ensures var s := Reached(net, es);
      |s.api.clicks| ==
        |s.api.dropped| + |s.api.channel| + |HeldUnsent(s)| + |s.api.failed| + |Sent(s.stream.added)|
  {
    var s := Reached(net, es);
    ClickPlaces(net, es);
    PartitionCounts(|s.api.clicks|, s.api.dropped, InChannel(s.api), HeldUnsent(s), s.api.failed, Sent(s.stream.added));
    assert Distinct(s.api.channel) by {
      ReachedInv(net, es);
    }
    DistinctSize(s.api.channel);
  }

  lemma EntryCounts(net: NetLib, es: seq<Event>)
    ensures var s := Reached(net, es);
      |s.stream.added| == |Undelivered(s.stream)| + |s.past.lost| + |Stuck(s)| + |GivenUp(s)| + |s.db.log|
  {
    var s := Reached(net, es);
    EntryPlaces(net, es);
    PartitionCounts(|s.stream.added|, Undelivered(s.stream), s.past.lost, Stuck(s), GivenUp(s), s.past.logged);
    assert Distinct(s.past.source) && |s.past.source| == |s.db.log| && s.past.logged == Elements(s.past.source) by {
      ReachedInv(net, es);
    }
    DistinctSize(s.past.source);
  }

  /**
   * Conservation: in every reachable state in which each stream entry is one successful XADD of its own
   * click, the places add up to the clicks offered.
   */
  lemma Conservation(net: NetLib, es: seq<Event>)
    requires var added := Reached(net, es).stream.added;
      OneEntryPerClick(added) && forall i :: 0 <= i < |added| ==> added[i].click.Some?
    ensures var s := Reached(net, es);
      |s.api.clicks| ==
        |s.api.dropped| + |s.api.channel| + |HeldUnsent(s)| + |s.api.failed|
        + |Undelivered(s.stream)| + |s.past.lost| + |Stuck(s)| + |GivenUp(s)| + |s.db.log|
  {
    ClickCounts(net, es);
    EntryCounts(net, es);
    SentSize(Reached(net, es).stream.added);
  }

  // ---- The place of one click

  datatype Place = Dropped | Queued | Held | Failed | Unread | Trimmed | Pending | Skipped | Logged

  function EntriesAt(s: State, p: Place): set<nat> {
    match p
    case Unread => Undelivered(s.stream)
    case Trimmed => s.past.lost
    case Pending => Stuck(s)
    case Skipped => GivenUp(s)
    case Logged => s.past.logged
    case _ => {}
  }

  /** Click `c` is at `p`: on its way to the stream, or with the entry it became. */
  predicate IsAt(s: State, c: nat, p: Place) {
    match p
    case Dropped => c in s.api.dropped
    case Queued => c in s.api.channel
    case Held => c in HeldUnsent(s)
    case Failed => c in s.api.failed
    case _ => exists i :: 0 <= i < |s.stream.added| && s.stream.added[i].click == Some(c) && i in EntriesAt(s, p)
  }

  lemma EntryIsSomewhere(net: NetLib, es: seq<Event>, i: nat) returns (p: Place)
    requires i < |Reached(net, es).stream.added|
    ensures i in EntriesAt(Reached(net, es), p)
  {
    var s := Reached(net, es);
    EntryPlaces(net, es);
    p := if i in Undelivered(s.stream) then Unread
         else if i in s.past.lost then Trimmed
         else if i in Stuck(s) then Pending
         else if i in GivenUp(s) then Skipped
         else Logged;
  }

  lemma EntryIsInOnePlace(net: NetLib, es: seq<Event>, i: nat, p: Place, q: Place)
    requires i in EntriesAt(Reached(net, es), p) && i in EntriesAt(Reached(net, es), q)
    ensures p == q
  {
    EntryPlaces(net, es);
  }

  lemma ClickIsSomewhere(net: NetLib, es: seq<Event>, c: nat) returns (p: Place)
    requires c < |Reached(net, es).api.clicks|
    ensures IsAt(Reached(net, es), c, p)
  {
    var s := Reached(net, es);
    ClickPlaces(net, es);
    if c in s.api.dropped {
      p := Dropped;
    } else if c in s.api.channel {
      p := Queued;
    } else if c in HeldUnsent(s) {
      p := Held;
    } else if c in s.api.failed {
      p := Failed;
    } else {
      var e :| e in s.stream.added && e.click == Some(c);
      var i :| 0 <= i < |s.stream.added| && s.stream.added[i] == e;
      p := EntryIsSomewhere(net, es, i);
    }
  }

  predicate InStream(p: Place) {
    p.Unread? || p.Trimmed? || p.Pending? || p.Skipped? || p.Logged?
  }

  lemma InStreamIsSent(s: State, c: nat, p: Place)
    requires IsAt(s, c, p) && InStream(p)
    ensures c in Sent(s.stream.added)
  {
    var i :| 0 <= i < |s.stream.added| && s.stream.added[i].click == Some(c) && i in EntriesAt(s, p);
    assert s.stream.added[i] in s.stream.added;
  }

  lemma ClickIsInOnePlace(net: NetLib, es: seq<Event>, c: nat, p: Place, q: Place)
    requires OneEntryPerClick(Reached(net, es).stream.added)
    requires IsAt(Reached(net, es), c, p) && IsAt(Reached(net, es), c, q)
    ensures p == q
  {
    var s := Reached(net, es);
    ClickPlaces(net, es);
    if InStream(p) {
      InStreamIsSent(s, c, p);
    }
    if InStream(q) {
      InStreamIsSent(s, c, q);
    }
    if InStream(p) && InStream(q) {
      var i :| 0 <= i < |s.stream.added| && s.stream.added[i].click == Some(c) && i in EntriesAt(s, p);
      var j :| 0 <= j < |s.stream.added| && s.stream.added[j].click == Some(c) && j in EntriesAt(s, q);
      assert i == j;
      EntryIsInOnePlace(net, es, i, p, q);
    }
  }

  /** Without repeated XADDs every single click is in exactly one of the nine places. */
  lemma EveryClickHasOnePlace(net: NetLib, es: seq<Event>, c: nat)
    requires OneEntryPerClick(Reached(net, es).stream.added)
    requires c < |Reached(net, es).api.clicks|
    ensures var s := Reached(net, es);
      exists p :: IsAt(s, c, p) && forall q :: IsAt(s, c, q) ==> q == p
  {
    var p := ClickIsSomewhere(net, es, c);
    forall q | IsAt(Reached(net, es), c, q) ensures q == p {
      ClickIsInOnePlace(net, es, c, q, p);
    }
  }

  // ---- Trimming

  /** In every state of the run the undelivered backlog is below the stream's limit. */
  predicate BacklogBelowLimit(net: NetLib, s: State, es: seq<Event>)
    decreases |es|
  {
    |s.stream.added| - s.stream.Next() < MAX_LEN
    && (es == [] || BacklogBelowLimit(net, Step(net, s, es[0]), es[1..]))
  }

  lemma StepLosesNothing(net: NetLib, s: State, e: Event)
    requires |s.stream.added| - s.stream.Next() < MAX_LEN
    ensures Step(net, s, e).past.lost == s.past.lost
  {
  }

  /** Trimming loses nothing as long as the consumers keep the backlog below the limit. */
  lemma {:induction false} NothingLostBelowLimit(net: NetLib, s: State, es: seq<Event>)
    requires Inv(net, s) && s.past.lost == {}
    requires BacklogBelowLimit(net, s, es)
    ensures RunAll(net, s, es).past.lost == {}
    decreases |es|
  {
    if es != [] {
      var s' := Step(net, s, es[0]);
      StepKeeps(net, s, es[0]);
      assert s'.past.lost == {} by {
        StepLosesNothing(net, s, es[0]);
      }
      NothingLostBelowLimit(net, s', es[1..]);
    }
  }

  /** The log only grows, by whole batches. */
  lemma {:induction false} LogOnlyGrows(net: NetLib, s: State, es: seq<Event>)
    ensures s.db.log <= RunAll(net, s, es).db.log
    decreases |es|
  {
    if es != [] {
      LogOnlyGrows(net, Step(net, s, es[0]), es[1..]);
    }
  }
}
