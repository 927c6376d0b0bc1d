/** The keys that the link cache, the stats cache, the processed marks and the click stream put into one Redis. */
module RedisKeys {
  import opened Options

  /** A calendar date with a four-digit year. */
  datatype Date = Date(year: nat, month: nat, day: nat)
  {
    predicate Valid() {
      year <= 9999 && 1 <= month <= 12 && 1 <= day <= 31
    }
  }

  function Digit(n: nat): char {
    "0123456789"[n % 10]
  }

  function Pad2(n: nat): string {
    [Digit(n / 10), Digit(n)]
  }

  function Pad4(n: nat): string {
    Pad2(n / 100) + Pad2(n % 100)
  }

  /** The layout 2006-01-02. */
  function Format(d: Date): string {
    Pad4(d.year) + "-" + Pad2(d.month) + "-" + Pad2(d.day)
  }

  function StatsKey(slug: string, start: string, end: string): string {
    "stats:" + slug + ":" + start + ":" + end
  }

  function LinkKey(slug: string): string {
    "link:" + slug
  }

  function ProcessedKey(requestID: string): string {
    "stats:processed:" + requestID
  }

  /** The request id of a scheduled aggregation. */
  function ScheduledRequest(d: Date): string {
    "stats-aggregate-" + Format(d)
  }

  const STREAM_KEY := "clicks:stream"

  lemma DigitInjective(m: nat, n: nat)
    requires Digit(m) == Digit(n)
    ensures m % 10 == n % 10
  {
    assert forall i, j :: 0 <= i < j < 10 ==> "0123456789"[i] != "0123456789"[j];
  }

  lemma Pad2Injective(m: nat, n: nat)
    requires m < 100 && n < 100 && Pad2(m) == Pad2(n)
    ensures m == n
  {
    assert Pad2(m)[0] == Pad2(n)[0] && Pad2(m)[1] == Pad2(n)[1];
    DigitInjective(m / 10, n / 10);
    DigitInjective(m, n);
  }

  lemma FormatShape(d: Date)
    ensures var f := Format(d);
      && |f| == 10 && f[4] == '-' && f[7] == '-'
      && f[0..2] == Pad2(d.year / 100) && f[2..4] == Pad2(d.year % 100)
      && f[5..7] == Pad2(d.month) && f[8..10] == Pad2(d.day)
  {
  }

  lemma FormatInjective(d: Date, e: Date)
    requires d.Valid() && e.Valid() && Format(d) == Format(e)
    ensures d == e
  {
    FormatShape(d);
    FormatShape(e);
    Pad2Injective(d.year / 100, e.year / 100);
    Pad2Injective(d.year % 100, e.year % 100);
    Pad2Injective(d.month, e.month);
    Pad2Injective(d.day, e.day);
  }

  predicate IsDigit(c: char) {
    '0' <= c <= '9'
  }

  predicate IsPair(s: string) {
    |s| == 2 && IsDigit(s[0]) && IsDigit(s[1])
  }

  function ReadPair(s: string): nat
    requires IsPair(s)
  {
    10 * (s[0] as nat - '0' as nat) + (s[1] as nat - '0' as nat)
  }

  /** Reads the layout 2006-01-02. */
  function ParseDate(s: string): Option<Date> {
    if |s| == 10 && IsPair(s[0..2]) && IsPair(s[2..4]) && s[4] == '-' && IsPair(s[5..7])
      && s[7] == '-' && IsPair(s[8..10])
    then Some(Date(100 * ReadPair(s[0..2]) + ReadPair(s[2..4]), ReadPair(s[5..7]), ReadPair(s[8..10])))
    else None
  }

  lemma DigitIsRead(n: nat)
    ensures IsDigit(Digit(n)) && Digit(n) as nat - '0' as nat == n % 10
  {
  }

  lemma Pad2IsRead(n: nat)
    requires n < 100
    ensures IsPair(Pad2(n)) && ReadPair(Pad2(n)) == n
  {
    DigitIsRead(n / 10);
    DigitIsRead(n);
  }

  /** Round trip: a formatted date reads as itself. */
  lemma FormatIsRead(d: Date)
    requires d.Valid()
    ensures ParseDate(Format(d)) == Some(d)
  {
    FormatShape(d);
    Pad2IsRead(d.year / 100);
    Pad2IsRead(d.year % 100);
    Pad2IsRead(d.month);
    Pad2IsRead(d.day);
  }

  lemma StatsKeyParts(slug: string, start: string, end: string)
    requires |start| == 10 && |end| == 10
    ensures var k := StatsKey(slug, start, end);
      && |k| == |slug| + 28
      && k[6..|k| - 22] == slug && k[|k| - 22] == ':' && k[|k| - 21..|k| - 11] == start
      && k[|k| - 11] == ':' && k[|k| - 10..] == end
  {
  }

  /** The stats key determines slug and dates, even when the slug contains colons. */
  lemma StatsKeyInjective(slug: string, s: Date, e: Date, slug': string, s': Date, e': Date)
    requires s.Valid() && e.Valid() && s'.Valid() && e'.Valid()
    requires StatsKey(slug, Format(s), Format(e)) == StatsKey(slug', Format(s'), Format(e'))
    ensures slug == slug' && s == s' && e == e'
  {
    FormatShape(s);
    FormatShape(e);
    FormatShape(s');
    FormatShape(e');
    StatsKeyParts(slug, Format(s), Format(e));
    StatsKeyParts(slug', Format(s'), Format(e'));
    FormatInjective(s, s');
    FormatInjective(e, e');
  }

  lemma LinkKeyInjective(slug: string, slug': string)
    requires LinkKey(slug) == LinkKey(slug')
    ensures slug == slug'
  {
    assert LinkKey(slug)[5..] == slug;
    assert LinkKey(slug')[5..] == slug';
  }

  lemma ScheduledKeyEnds(d: Date)
    ensures |ProcessedKey(ScheduledRequest(d))| >= 32 && ProcessedKey(ScheduledRequest(d))[32..] == Format(d)
  {
  }

  /** Two scheduled runs share a mark only if they are of the same day. */
  lemma ScheduledKeyInjective(d: Date, e: Date)
    requires d.Valid() && e.Valid()
    requires ProcessedKey(ScheduledRequest(d)) == ProcessedKey(ScheduledRequest(e))
    ensures d == e
  {
    ScheduledKeyEnds(d);
    ScheduledKeyEnds(e);
    FormatInjective(d, e);
  }

  lemma CollisionNeedsPrefix(slug: string, start: string, end: string, id: string)
    requires ProcessedKey(id) == StatsKey(slug, start, end)
    ensures "processed:" <= slug + ":"
  {
    var key := ProcessedKey(id);
    assert key[15] == ':' && forall i :: 6 <= i < 15 ==> key[i] == "processed:"[i - 6] && key[i] != ':';
    assert key == StatsKey(slug, start, end);
    assert key[6 + |slug|] == ':';
    assert forall i :: 0 <= i < |slug| ==> key[6 + i] == slug[i];
    forall i | 0 <= i < 10 ensures i < |slug + ":"| && (slug + ":")[i] == "processed:"[i] {
      assert key[6 + i] == "processed:"[i];
    }
  }

  lemma PrefixCollides(slug: string, start: string, end: string) returns (id: string)
    requires "processed:" <= slug + ":"
    ensures ProcessedKey(id) == StatsKey(slug, start, end)
  {
    var tail := (slug + ":")[10..];
    id := tail + start + ":" + end;
    assert slug + ":" == "processed:" + tail;
    assert ProcessedKey(id) == ("stats:" + ("processed:" + tail)) + (start + ":" + end);
    assert StatsKey(slug, start, end) == ("stats:" + (slug + ":")) + (start + ":" + end);
  }

  /**
   * Beyond the scheduled ids: some request id shares its mark with the stats key of a slug exactly
   * when the slug is `processed` or starts with `processed:`.
   */
  lemma UnscheduledCollision(slug: string, start: string, end: string)
    ensures (exists id :: ProcessedKey(id) == StatsKey(slug, start, end)) <==> "processed:" <= slug + ":"
  {
    if id :| ProcessedKey(id) == StatsKey(slug, start, end) {
      CollisionNeedsPrefix(slug, start, end, id);
    }
    if "processed:" <= slug + ":" {
      var id := PrefixCollides(slug, start, end);
    }
  }

  /** The families are disjoint for every slug, date range and scheduled day. */
  lemma FamiliesAreDisjoint(slug: string, slug': string, s: Date, e: Date, day: Date)
    ensures StatsKey(slug, Format(s), Format(e)) != LinkKey(slug')
    ensures StatsKey(slug, Format(s), Format(e)) != ProcessedKey(ScheduledRequest(day))
    ensures LinkKey(slug') != ProcessedKey(ScheduledRequest(day))
    ensures STREAM_KEY != StatsKey(slug, Format(s), Format(e))
    ensures STREAM_KEY != LinkKey(slug') && STREAM_KEY != ProcessedKey(ScheduledRequest(day))
  {
    FormatShape(s);
    FormatShape(e);
    FormatShape(day);
    var stats, link, mark := StatsKey(slug, Format(s), Format(e)), LinkKey(slug'), ProcessedKey(ScheduledRequest(day));
    assert stats[0] == 's' && link[0] == 'l' && STREAM_KEY[0] == 'c' && mark[0] == 's';
    StatsKeyParts(slug, Format(s), Format(e));
    assert |mark| == 42 && mark[31] == '-';
    assert stats[|stats| - 11] == ':';
  }

  /** The keys as they are stored. */
  lemma KeysAsStored(day: Date)
    ensures StatsKey("a", "b", "c") == "stats:a:b:c" && LinkKey("a") == "link:a" && STREAM_KEY == "clicks:stream"
    ensures ProcessedKey(ScheduledRequest(day)) == "stats:processed:stats-aggregate-" + Format(day)
  {
  }
}
