/** Option type shared by the whole model. */
module Options {
  datatype Option<+T> = None | Some(value: T)
}

module Replies {
  /** How an outside call ends: a lost reply means it took effect but its caller is told it failed. */
  datatype Reply = Fine | ReplyLost | Refused
}

module Ranges {
  function Range(lo: nat, hi: nat): (r: set<nat>)
    ensures forall i :: i in r <==> lo <= i < hi
    ensures |r| == if lo <= hi then hi - lo else 0
    decreases hi
  {
    if hi <= lo then {} else Range(lo, hi - 1) + {hi - 1}
  }
}

/** The `slug CHAR(11)` column: comparison of such values ignores trailing blanks. */
module Slugs {
  /** The significant part of a slug, which is what the database compares. */
  function Unpadded(s: string): string {
    if s != "" && s[|s| - 1] == ' ' then Unpadded(s[..|s| - 1]) else s
  }

  predicate Canonical(s: string) {
    s == "" || s[|s| - 1] != ' '
  }

  /** `Unpadded` takes away trailing blanks and nothing else. */
  lemma {:induction false} UnpaddedMeaning(s: string)
    ensures Unpadded(s) <= s && Canonical(Unpadded(s))
    ensures forall i :: |Unpadded(s)| <= i < |s| ==> s[i] == ' '
    ensures Unpadded(s) == s <==> Canonical(s)
  {
    if !Canonical(s) {
      UnpaddedMeaning(s[..|s| - 1]);
    }
  }
}

/** Click payloads, stream messages and the rows written to `click_logs`. */
module Clicks {
  import opened Options

  const CLICK_WORKER_COUNT: nat := 64
  const CLICK_CHAN_SIZE: nat := 10000

  /** What a redirect records about a click; `clickedAt` is in microseconds UTC. */
  datatype Payload = Payload(slug: string, ipAddress: string, userAgent: string, referer: string, clickedAt: int)

  /** What the `data` field of a stream message turns out to be when it is read and decoded. */
  datatype Body = MissingData | Malformed | Decoded(payload: Payload)

  /** Stream ids only ever grow, so the model numbers entries by their position of arrival. */
  datatype Message = Message(id: nat, body: Body)

  datatype ClickRecord = ClickRecord(
    linkId: nat, ip: Option<string>, referer: Option<string>, userAgent: Option<string>, clickedAt: int)

  datatype LogRow = LogRow(
    linkId: nat, ip: Option<string>, referer: Option<string>, country: Option<string>,
    userAgent: Option<string>, clickedAt: int)

  /** The two address functions of the Go library, left uninterpreted. */
  datatype NetLib = NetLib(splitHostPort: string -> Option<string>, parseAddr: string -> Option<string>)

  /** Answer of `GetLinkBySlug`; the caller treats both failures alike. */
  datatype Lookup = Found(linkId: nat) | NotFound | QueryError

  function Text(s: string): Option<string> {
    if s != "" then Some(s) else None
  }

  function ParseIp(net: NetLib, address: string): Option<string> {
    if address == "" then None
    else
      var host := match net.splitHostPort(address) case Some(h) => h case None => address;
      net.parseAddr(host)
  }

  function RecordOf(net: NetLib, p: Payload, linkId: nat): ClickRecord {
    ClickRecord(linkId, ParseIp(net, p.ipAddress), Text(p.referer), Text(p.userAgent), p.clickedAt)
  }

  /** The row copied into `click_logs`; the pipeline never knows the country. */
  function RowFor(c: ClickRecord): LogRow {
    LogRow(c.linkId, c.ip, c.referer, None, c.userAgent, c.clickedAt)
  }

  function RowOf(net: NetLib, p: Payload, linkId: nat): LogRow {
    RowFor(RecordOf(net, p, linkId))
  }

  /** What each column of a logged row says about the click. */
  lemma RowMeaning(net: NetLib, p: Payload, linkId: nat, x: string)
    ensures var row := RowOf(net, p, linkId);
      && row.linkId == linkId && row.clickedAt == p.clickedAt && row.country == None
      && (row.referer == Some(x) <==> p.referer == x && x != "")
      && (row.userAgent == Some(x) <==> p.userAgent == x && x != "")
      && (row.ip == Some(x) <==>
            && p.ipAddress != ""
            && ((net.splitHostPort(p.ipAddress).None? && net.parseAddr(p.ipAddress) == Some(x))
                || exists h :: net.splitHostPort(p.ipAddress) == Some(h) && net.parseAddr(h) == Some(x)))
  {
  }

  /** The record a message yields, if any. */
  function Classify(net: NetLib, body: Body, lookup: Lookup): Option<ClickRecord> {
    if body.Decoded? && lookup.Found? then Some(RecordOf(net, body.payload, lookup.linkId)) else None
  }

  function Ids(ms: seq<Message>): (ids: seq<nat>)
    ensures |ids| == |ms| && forall i :: 0 <= i < |ms| ==> ids[i] == ms[i].id
  {
    seq(|ms|, i requires 0 <= i < |ms| => ms[i].id)
  }

  function RowsFor(cs: seq<ClickRecord>): (rows: seq<LogRow>)
    ensures |rows| == |cs| && forall i :: 0 <= i < |cs| ==> rows[i] == RowFor(cs[i])
  {
    seq(|cs|, i requires 0 <= i < |cs| => RowFor(cs[i]))
  }

  /** The records of a batch in batch order, one per insertable message. */
  function Records(net: NetLib, ms: seq<Message>, answers: seq<Lookup>): seq<ClickRecord>
    requires |ms| == |answers|
  {
    if ms == [] then []
    else
      var n := |ms| - 1;
      Records(net, ms[..n], answers[..n]) +
      match Classify(net, ms[n].body, answers[n]) case Some(c) => [c] case None => []
  }

  /** The batch positions whose message was insertable. */
  function Kept(net: NetLib, ms: seq<Message>, answers: seq<Lookup>): seq<nat>
    requires |ms| == |answers|
  {
    if ms == [] then []
    else
      var n := |ms| - 1;
      Kept(net, ms[..n], answers[..n]) + if Classify(net, ms[n].body, answers[n]).Some? then [n] else []
  }

  /** `Records` is the order-preserving filter-map: strictly increasing positions, all insertable ones, nothing else. */
  lemma {:induction false} RecordsAreOrderedFilterMap(net: NetLib, ms: seq<Message>, answers: seq<Lookup>)
    requires |ms| == |answers|
    ensures var kept, records := Kept(net, ms, answers), Records(net, ms, answers);
      && |records| == |kept| <= |ms|
      && (forall j :: 0 <= j < |kept| ==>
            kept[j] < |ms| && Classify(net, ms[kept[j]].body, answers[kept[j]]) == Some(records[j]))
      && (forall j, k :: 0 <= j < k < |kept| ==> kept[j] < kept[k])
      && (forall i :: 0 <= i < |ms| ==> (i in kept <==> Classify(net, ms[i].body, answers[i]).Some?))
  {
    if ms != [] {
      var n := |ms| - 1;
      RecordsAreOrderedFilterMap(net, ms[..n], answers[..n]);
    }
  }
}
