/** The parts of Redis and Postgres that the click pipeline touches, with one function per command. */
module Store {
  import opened Options
  import opened Ranges
  import opened Slugs
  import opened Clicks

  const BATCH_SIZE: nat := 1000
  const MAX_LEN: nat := 100000

  /** `click` names the redirect that produced the entry; None for entries written by anybody else. */
  datatype Entry = Entry(body: Body, click: Option<nat>)

  /**
   * The click stream and its consumer group. `added` is every entry the stream ever received, of
   * which the first `trimmed` are gone; `cursor` is the group's last-delivered position (None: no
   * group) and `pending` its pending list.
   */
  datatype Stream = Stream(added: seq<Entry>, trimmed: nat, cursor: Option<nat>, pending: set<nat>)
  {
    function Cursor(): nat {
      if cursor.None? then 0 else cursor.value
    }

    /** First position XREADGROUP ">" may deliver. */
    function Next(): nat {
      if Cursor() < trimmed then trimmed else Cursor()
    }
  }

  /** `live` maps each undeleted slug to its link, `log` is the committed content of `click_logs`. */
  datatype Db = Db(live: map<string, nat>, log: seq<LogRow>)

  /** The messages one XREADGROUP ">" COUNT 1000 delivers. */
  function Delivery(q: Stream): (ms: seq<Message>)
    ensures |ms| <= BATCH_SIZE
    ensures forall i :: 0 <= i < |ms| ==>
      q.Next() + i < |q.added| && ms[i] == Message(q.Next() + i, q.added[q.Next() + i].body)
  {
    if q.cursor.None? || |q.added| <= q.Next() then []
    else
      var available := |q.added| - q.Next();
      var n := if available < BATCH_SIZE then available else BATCH_SIZE;
      seq(n, i requires 0 <= i < n => Message(q.Next() + i, q.added[q.Next() + i].body))
  }

  /** A group is handed everything it has not read yet, up to 1000 entries. */
  lemma DeliveryLength(q: Stream)
    requires q.cursor.Some? && q.Next() <= |q.added|
    ensures |Delivery(q)| == if |q.added| - q.Next() <= 1000 then |q.added| - q.Next() else 1000
  {
  }

  /** The read moves the cursor and fills the pending list whether or not its reply arrives. */
  function AfterRead(q: Stream): Stream {
    var n := |Delivery(q)|;
    if n == 0 then q
    else q.(cursor := Some(q.Next() + n), pending := q.pending + Range(q.Next(), q.Next() + n))
  }

  function AfterAck(q: Stream, ids: seq<nat>): Stream {
    q.(pending := q.pending - set i | i in ids)
  }

  /** XGROUP CREATE from "0"; an existing group (BUSYGROUP) is left as it is. */
  function AfterEnsureGroup(q: Stream): Stream {
    if q.cursor.None? then q.(cursor := Some(0)) else q
  }

  /** What `GetLinkBySlug` answers for a message; asked only when the payload decodes. */
  function Answer(live: map<string, nat>, body: Body, fault: bool): Lookup {
    if body.Decoded? then
      var slug := Unpadded(body.payload.slug);
      if fault then QueryError else if slug in live then Found(live[slug]) else NotFound
    else NotFound
  }

  /** A new group will be handed the oldest entry the stream still has; an existing one reads on. */
  lemma GroupStartsAtTheBeginning(q: Stream)
    ensures var q' := AfterEnsureGroup(q);
      && q'.cursor.Some? && q'.Next() == q.Next() && (q.cursor.None? ==> q'.Next() == q.trimmed)
      && q'.added == q.added && q'.trimmed == q.trimmed && q'.pending == q.pending
      && (q.cursor.Some? ==> q' == q)
  {
  }

  /** The message decodes, its slug is that of a live link, and the lookup does not fail. */
  predicate Insertable(live: map<string, nat>, body: Body, fault: bool) {
    body.Decoded? && Unpadded(body.payload.slug) in live && !fault
  }

  /** A message gets a row exactly if it is insertable. */
  lemma RowIffInsertable(net: NetLib, live: map<string, nat>, body: Body, fault: bool)
    ensures Classify(net, body, Answer(live, body, fault)).Some? <==> Insertable(live, body, fault)
  {
  }

  predicate Faulty(faults: seq<bool>, i: nat) {
    i < |faults| && faults[i]
  }

  function Answers(live: map<string, nat>, ms: seq<Message>, faults: seq<bool>): (r: seq<Lookup>)
    ensures |r| == |ms| && forall i :: 0 <= i < |ms| ==> r[i] == Answer(live, ms[i].body, Faulty(faults, i))
  {
    seq(|ms|, i requires 0 <= i < |ms| => Answer(live, ms[i].body, Faulty(faults, i)))
  }
}
