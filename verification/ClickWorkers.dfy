/** The bounded click channel, its pool of workers, and their drain on shutdown. */
module ClickWorkers {
  import opened Clicks

  /** A worker waits on the channel, is inside sendClickToStream, or has left its loop. */
  datatype Worker = Idle | Busy(payload: Payload) | Exited

  /** What one worker has inside sendClickToStream. */
  function Carried(x: Worker): multiset<Payload> {
    if x.Busy? then multiset{x.payload} else multiset{}
  }

  function InFlight(ws: seq<Worker>): multiset<Payload> {
    if ws == [] then multiset{} else Carried(ws[0]) + InFlight(ws[1..])
  }

  function Live(ws: seq<Worker>): nat {
    if ws == [] then 0 else (if ws[0].Exited? then 0 else 1) + Live(ws[1..])
  }

  lemma {:induction false} ReplaceInFlight(ws: seq<Worker>, w: nat, x: Worker)
    requires w < |ws|
    ensures InFlight(ws[w := x]) + Carried(ws[w]) == InFlight(ws) + Carried(x)
  {
    var ws' := ws[w := x];
    if w == 0 {
      assert ws'[1..] == ws[1..];
    } else {
      var rest, rest' := InFlight(ws[1..]), InFlight(ws'[1..]);
      ReplaceInFlight(ws[1..], w - 1, x);
      assert ws'[1..] == ws[1..][w - 1 := x];
      assert InFlight(ws') + Carried(ws[w]) == Carried(ws[0]) + (rest' + Carried(ws[w]));
    }
  }

  lemma Shift(handed: seq<Payload>, channel: seq<Payload>)
    requires channel != []
    ensures (handed + [channel[0]]) + channel[1..] == handed + channel
  {
  }

  lemma HandOver(handed: seq<Payload>, returned: multiset<Payload>, flying: multiset<Payload>, payload: Payload)
    requires multiset(handed) == returned + flying
    ensures multiset(handed + [payload]) == returned + (flying + multiset{payload})
  {
    assert returned + (flying + multiset{payload}) == (returned + flying) + multiset{payload};
  }

  lemma HandBack(
      handed: seq<Payload>, returned: multiset<Payload>, flying: multiset<Payload>, rest: multiset<Payload>,
      payload: Payload)
    requires multiset(handed) == returned + flying && flying == rest + multiset{payload}
    ensures multiset(handed) == (returned + multiset{payload}) + rest && |rest| < |flying|
  {
    assert returned + (rest + multiset{payload}) == (returned + multiset{payload}) + rest;
  }

  lemma Received(ws: seq<Worker>, w: nat, payload: Payload)
    requires w < |ws| && ws[w].Idle?
    ensures InFlight(ws[w := Busy(payload)]) == InFlight(ws) + multiset{payload}
  {
    ReplaceInFlight(ws, w, Busy(payload));
    assert InFlight(ws[w := Busy(payload)]) + multiset{} == InFlight(ws[w := Busy(payload)]);
  }

  lemma ReceiveHandsOver(
      handed: seq<Payload>, returned: multiset<Payload>, ws: seq<Worker>, w: nat, payload: Payload)
    requires w < |ws| && ws[w].Idle? && multiset(handed) == returned + InFlight(ws)
    ensures multiset(handed + [payload]) == returned + InFlight(ws[w := Busy(payload)])
  {
    Received(ws, w, payload);
    HandOver(handed, returned, InFlight(ws), payload);
  }

  lemma Returned(ws: seq<Worker>, w: nat)
    requires w < |ws| && ws[w].Busy?
    ensures InFlight(ws) == InFlight(ws[w := Idle]) + multiset{ws[w].payload}
  {
    ReplaceInFlight(ws, w, Idle);
    assert InFlight(ws) + multiset{} == InFlight(ws);
  }

  lemma {:induction false} ReplaceLive(ws: seq<Worker>, w: nat, x: Worker)
    requires w < |ws|
    ensures Live(ws[w := x]) + (if ws[w].Exited? then 0 else 1) == Live(ws) + (if x.Exited? then 0 else 1)
  {
    if w == 0 {
      assert ws[w := x][1..] == ws[1..];
    } else {
      ReplaceLive(ws[1..], w - 1, x);
      assert ws[w := x][1..] == ws[1..][w - 1 := x];
    }
  }

  lemma Left(ws: seq<Worker>, w: nat)
    requires w < |ws| && ws[w].Idle?
    ensures InFlight(ws[w := Exited]) == InFlight(ws) && Live(ws[w := Exited]) < Live(ws)
  {
    ReplaceInFlight(ws, w, Exited);
    ReplaceLive(ws, w, Exited);
    assert InFlight(ws[w := Exited]) + multiset{} == InFlight(ws[w := Exited]);
    assert InFlight(ws) + multiset{} == InFlight(ws);
  }

  lemma {:induction false} NoneLive(ws: seq<Worker>)
    requires forall w :: 0 <= w < |ws| ==> ws[w].Exited?
    ensures InFlight(ws) == multiset{}
  {
    if ws != [] {
      assert forall w :: 0 <= w < |ws[1..]| ==> ws[1..][w] == ws[w + 1];
      NoneLive(ws[1..]);
    }
  }

  lemma {:induction false} AllIdle(ws: seq<Worker>)
    requires forall w :: 0 <= w < |ws| ==> ws[w].Idle?
    ensures InFlight(ws) == multiset{}
  {
    if ws != [] {
      assert forall w :: 0 <= w < |ws[1..]| ==> ws[1..][w] == ws[w + 1];
      AllIdle(ws[1..]);
    }
  }

  /** `handed` are the payloads passed to sendClickToStream, `returned` those for which it came back. */
  class WorkerPool {
    var channel: seq<Payload>
    var closed: bool
    var workers: seq<Worker>
    var handed: seq<Payload>
    var returned: multiset<Payload>

    ghost predicate Valid()
      reads this
    {
      && |workers| == CLICK_WORKER_COUNT
      && |channel| <= CLICK_CHAN_SIZE
      && multiset(handed) == returned + InFlight(workers)
      && (forall w :: 0 <= w < |workers| && workers[w].Exited? ==> closed && channel == [])
    }

    constructor ()
      ensures Valid() && !closed && channel == [] && handed == []
      ensures |workers| == 64 && forall w :: 0 <= w < 64 ==> workers[w].Idle?
    {
      channel, closed, handed, returned := [], false, [], multiset{};
      workers := seq(CLICK_WORKER_COUNT, _ => Idle);
      new;
      AllIdle(workers);
    }

    /** The non-blocking send of a redirect: a full channel drops the click. */
    method Offer(payload: Payload) returns (accepted: bool)
      requires Valid() && !closed
      modifies this
      ensures Valid() && !closed && handed == old(handed) && workers == old(workers) && returned == old(returned)
      ensures accepted == (|old(channel)| < CLICK_CHAN_SIZE)
      ensures channel == old(channel) + if accepted then [payload] else []
    {
      accepted := |channel| < CLICK_CHAN_SIZE;
      if accepted {
        channel := channel + [payload];
      }
    }

    predicate CanStep(w: nat)
      reads this
    {
      w < |workers| && !workers[w].Exited? && (workers[w].Idle? ==> channel != [] || closed)
    }

    /** One step of a worker: receive, come back from the XADD, or leave the loop of a closed empty channel. */
    method WorkerStep(w: nat)
      requires Valid() && CanStep(w)
      modifies this
      ensures Valid() && closed == old(closed)
      ensures handed + channel == old(handed) + old(channel)
      ensures old(returned) <= returned
      ensures |channel| < |old(channel)|
           || (channel == old(channel) && |InFlight(workers)| < |InFlight(old(workers))|)
           || (channel == old(channel) && |InFlight(workers)| == |InFlight(old(workers))|
               && Live(workers) < Live(old(workers)))
    {
      match workers[w] {
        case Idle =>
          if channel != [] {
            Shift(handed, channel);
            Receive(w);
          } else {
            Leave(w);
          }
        case Busy(_) => Return(w);
      }
    }

    method Receive(w: nat)
      requires Valid() && w < |workers| && workers[w].Idle? && channel != []
      modifies this
      ensures Valid() && closed == old(closed) && returned == old(returned)
      ensures workers == old(workers)[w := Busy(old(channel)[0])]
      ensures channel == old(channel)[1..] && handed == old(handed) + [old(channel)[0]]
    {
      var payload := channel[0];
      ReceiveHandsOver(handed, returned, workers, w, payload);
      var next := workers[w := Busy(payload)];
      assert forall v :: 0 <= v < |next| ==> !next[v].Exited?;
      channel, handed, workers := channel[1..], handed + [payload], next;
    }

    method Return(w: nat)
      requires Valid() && w < |workers| && workers[w].Busy?
      modifies this
      ensures Valid() && closed == old(closed) && channel == old(channel) && handed == old(handed)
      ensures workers == old(workers)[w := Idle]
      ensures returned == old(returned) + multiset{old(workers)[w].payload}
      ensures |InFlight(workers)| < |InFlight(old(workers))|
    {
      var payload, next := workers[w].payload, workers[w := Idle];
      Returned(workers, w);
      HandBack(handed, returned, InFlight(workers), InFlight(next), payload);
      assert forall v :: 0 <= v < |next| && next[v].Exited? ==> workers[v].Exited?;
      returned, workers := returned + multiset{payload}, next;
    }

    method Leave(w: nat)
      requires Valid() && w < |workers| && workers[w].Idle? && channel == [] && closed
      modifies this
      ensures Valid() && closed && channel == [] && handed == old(handed) && returned == old(returned)
      ensures workers == old(workers)[w := Exited]
      ensures |InFlight(workers)| == |InFlight(old(workers))| && Live(workers) < Live(old(workers))
    {
      Left(workers, w);
      workers := workers[w := Exited];
    }

    /**
     * Stop: close the channel and wait for the workers, which the scheduler runs in any order. It
     * terminates, and by then every accepted payload was passed to sendClickToStream exactly once,
     * in the order of acceptance, and every such call has returned.
     */
    method Stop()
      requires Valid() && !closed
      modifies this
      ensures Valid() && closed && channel == []
      ensures forall w :: 0 <= w < |workers| ==> workers[w].Exited?
      ensures handed == old(handed) + old(channel)
      ensures returned == multiset(old(handed) + old(channel))
    {
      closed := true;
      while exists w :: 0 <= w < |workers| && !workers[w].Exited?
        invariant Valid() && closed
        invariant handed + channel == old(handed) + old(channel)
        decreases |channel|, |InFlight(workers)|, Live(workers)
      {
        var w :| 0 <= w < |workers| && !workers[w].Exited?;
        WorkerStep(w);
      }
      assert workers[0].Exited?;
      NoneLive(workers);
      assert handed + channel == handed;
    }
  }
}
