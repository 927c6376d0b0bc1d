/**
 * The click pipeline as a step system: redirects, click workers, the Redis stream with its consumer
 * group, any number of concurrent batch runs, and every fault between them.
 */
module Pipeline {
  import opened Options
  import opened Ranges
  import opened Slugs
  import opened Clicks
  import opened Store

  datatype Phase = Classifying | InTransaction | Acking

  /**
   * A batch run: the messages it was handed, consecutive entries from position `first` on, how many
   * of them are classified, and the records collected with the entry each came from.
   */
  datatype Run = Run(
    phase: Phase, first: nat, messages: seq<Message>, done: nat, records: seq<ClickRecord>, rowIds: seq<nat>)
  {
    function End(): nat {
      first + |messages|
    }

    predicate Holds(i: nat) {
      first <= i < End()
    }
  }

  /** The API process. A click is named by its position in `clicks`. */
  datatype Api = Api(clicks: seq<Payload>, dropped: set<nat>, channel: seq<nat>, held: map<nat, nat>, failed: set<nat>)

  /**
   * What happened so far: every slug ever given to a link, the entry each row of the log came from
   * and the set of those entries, the entries classified as skippable, and the entries trimmed away
   * before any delivery.
   */
  datatype History = History(
    ever: map<string, nat>, source: seq<nat>, logged: set<nat>, skipped: set<nat>, lost: set<nat>)

  datatype State = State(api: Api, stream: Stream, db: Db, runs: map<nat, Run>, past: History)

  /** Clicks that made it into the stream. */
  function Sent(added: seq<Entry>): set<nat> {
    set e | e in added && e.click.Some? :: e.click.value
  }

  datatype Event =
    | Offer(payload: Payload)                            // the non-blocking send of a redirect
    | Take(worker: nat)                                  // a click worker receives from the channel
    | XAdd(worker: nat, trim: nat)                       // one XADD takes effect, trimming `trim` old entries
    | Release(worker: nat)                               // sendClickToStream returns, whatever it was told
    | ApiCrash
    | ForeignXAdd(body: Body, trim: nat)                 // anybody else writing to the stream
    | EnsureGroup
    | LinkCreated(slug: string, id: nat)
    | LinkDeleted(slug: string)
    | Read(run: nat, replyLost: bool)
    | Look(run: nat, fault: bool)                        // classify one message
    | Copy(run: nat, ok: bool)                           // begin and CopyFrom
    | Commit(run: nat, applied: bool, reported: bool)
    | Ack(run: nat, applied: bool)
    | Crash(run: nat)                                    // the run ends here, for any reason

  const INIT := State(
    Api([], {}, [], map[], {}), Stream([], 0, None, {}), Db(map[], []), map[], History(map[], [], {}, {}, {}))

  function OfferTo(a: Api, p: Payload): Api {
    var c := |a.clicks|;
    if |a.channel| < CLICK_CHAN_SIZE then a.(clicks := a.clicks + [p], channel := a.channel + [c])
    else a.(clicks := a.clicks + [p], dropped := a.dropped + {c})
  }

  function TakeBy(a: Api, w: nat): Api {
    if w < CLICK_WORKER_COUNT && w !in a.held && a.channel != [] then
      a.(channel := a.channel[1..], held := a.held[w := a.channel[0]])
    else a
  }

  function ReleaseBy(a: Api, sent: set<nat>, w: nat): Api {
    if w !in a.held then a
    else a.(held := a.held - {w}, failed := if a.held[w] in sent then a.failed else a.failed + {a.held[w]})
  }

  function Restarted(a: Api, sent: set<nat>): Api {
    a.(channel := [], held := map[],
       failed := a.failed + (set c | c in a.channel) + ((set w | w in a.held :: a.held[w]) - sent))
  }

  /** XADD MAXLEN ~ 100000 trims old entries at its own discretion, but never below the limit. */
  predicate MayTrim(q: Stream, trim: nat) {
    trim == 0 || MAX_LEN + q.trimmed + trim <= |q.added| + 1
  }

  function Append(s: State, e: Entry, trim: nat): State
    requires MayTrim(s.stream, trim)
  {
    s.(stream := s.stream.(added := s.stream.added + [e], trimmed := s.stream.trimmed + trim),
       past := s.past.(lost := s.past.lost + Range(s.stream.Next(), s.stream.trimmed + trim)))
  }

  function StartRun(s: State, r: nat, replyLost: bool): State {
    var ms := Delivery(s.stream);
    if r in s.runs || ms == [] then s
    else
      s.(stream := AfterRead(s.stream),
         runs := if replyLost then s.runs else s.runs[r := Run(Classifying, s.stream.Next(), ms, 0, [], [])])
  }

  predicate Classifies(s: State, r: nat) {
    r in s.runs && s.runs[r].phase == Classifying && s.runs[r].done < |s.runs[r].messages|
  }

  predicate Classified(run: Run) {
    run.phase == Classifying && |run.messages| <= run.done
  }

  function LookStep(net: NetLib, s: State, r: nat, fault: bool): State {
    if !Classifies(s, r) then s
    else
      var run := s.runs[r];
      var m := run.messages[run.done];
      var c := Classify(net, m.body, Answer(s.db.live, m.body, fault));
      if c.Some? then
        s.(runs := s.runs[r := run.(done := run.done + 1, records := run.records + [c.value],
                                    rowIds := run.rowIds + [m.id])])
      else
        s.(runs := s.runs[r := run.(done := run.done + 1)], past := s.past.(skipped := s.past.skipped + {m.id}))
  }

  function CopyStep(s: State, r: nat, ok: bool): State {
    if r !in s.runs || !Classified(s.runs[r]) || s.runs[r].records == [] then s
    else s.(runs := if ok then s.runs[r := s.runs[r].(phase := InTransaction)] else s.runs - {r})
  }

  function Committed(s: State, run: Run): State {
    s.(db := s.db.(log := s.db.log + RowsFor(run.records)),
       past := s.past.(source := s.past.source + run.rowIds, logged := s.past.logged + set i | i in run.rowIds))
  }

  function CommitStep(s: State, r: nat, applied: bool, reported: bool): State {
    if r !in s.runs || s.runs[r].phase != InTransaction || (reported && !applied) then s
    else
      var after := if applied then Committed(s, s.runs[r]) else s;
      after.(runs := if reported then s.runs[r := s.runs[r].(phase := Acking)] else s.runs - {r})
  }

  /** A run acks after its commit, or straight after classifying when nothing was insertable. */
  predicate MayAck(run: Run) {
    run.phase == Acking || (Classified(run) && run.records == [])
  }

  function AckStep(s: State, r: nat, applied: bool): State {
    if r !in s.runs || !MayAck(s.runs[r]) then s
    else
      s.(stream := if applied then AfterAck(s.stream, Ids(s.runs[r].messages)) else s.stream, runs := s.runs - {r})
  }

  /** One step; an event that is not possible in `s` changes nothing. */
  function Step(net: NetLib, s: State, e: Event): State {
    match e
    case Offer(p) => s.(api := OfferTo(s.api, p))
    case Take(w) => s.(api := TakeBy(s.api, w))
    case XAdd(w, trim) =>
      if w in s.api.held && s.api.held[w] < |s.api.clicks| && MayTrim(s.stream, trim) then
        Append(s, Entry(Decoded(s.api.clicks[s.api.held[w]]), Some(s.api.held[w])), trim)
      else s
    case Release(w) => s.(api := ReleaseBy(s.api, Sent(s.stream.added), w))
    case ApiCrash => s.(api := Restarted(s.api, Sent(s.stream.added)))
    case ForeignXAdd(body, trim) => if MayTrim(s.stream, trim) then Append(s, Entry(body, None), trim) else s
    case EnsureGroup => s.(stream := AfterEnsureGroup(s.stream))
    case LinkCreated(slug, id) =>
      if Canonical(slug) && slug !in s.past.ever then
        s.(db := s.db.(live := s.db.live[slug := id]), past := s.past.(ever := s.past.ever[slug := id]))
      else s
    case LinkDeleted(slug) => s.(db := s.db.(live := s.db.live - {slug}))
    case Read(r, replyLost) => StartRun(s, r, replyLost)
    case Look(r, fault) => LookStep(net, s, r, fault)
    case Copy(r, ok) => CopyStep(s, r, ok)
    case Commit(r, applied, reported) => CommitStep(s, r, applied, reported)
    case Ack(r, applied) => AckStep(s, r, applied)
    case Crash(r) => s.(runs := s.runs - {r})
  }

  function RunAll(net: NetLib, s: State, es: seq<Event>): State
    decreases |es|
  {
    if es == [] then s else RunAll(net, Step(net, s, es[0]), es[1..])
  }

  lemma {:induction false} RunAllAppend(net: NetLib, s: State, es: seq<Event>, fs: seq<Event>)
    ensures RunAll(net, s, es + fs) == RunAll(net, RunAll(net, s, es), fs)
    decreases |es|
  {
    if es == [] {
      assert es + fs == fs;
    } else {
      assert (es + fs)[1..] == es[1..] + fs;
      RunAllAppend(net, Step(net, s, es[0]), es[1..], fs);
    }
  }

  lemma RunOne(net: NetLib, s: State, e: Event)
    ensures RunAll(net, s, [e]) == Step(net, s, e)
  {
    assert [e][1..] == [];
  }

  lemma RunCons(net: NetLib, s: State, e: Event, es: seq<Event>)
    ensures RunAll(net, s, [e] + es) == RunAll(net, Step(net, s, e), es)
  {
    assert ([e] + es)[1..] == es;
  }
}
