/** `Aggregate`: the guard, the four statements, the two map-building loops, the batched updates and the transaction. */
module Rollup {
  import opened Replies
  import opened Clicks
  import opened Queries
  import opened RedisKeys

  type Nested = map<StatKey, map<string, nat>>

  /** `nested` holds exactly the rows of `rows`. */
  ghost predicate IsNested(nested: Nested, rows: set<HistRow>) {
    && (forall row :: row in rows ==>
          row.key in nested && row.value in nested[row.key] && nested[row.key][row.value] == row.cnt)
    && (forall k :: k in nested ==> exists row :: row in rows && row.key == k)
    && (forall k, x :: k in nested && x in nested[k] ==> HistRow(k, x, nested[k][x]) in rows)
  }

  function HistKeys(log: seq<LogRow>, a: int, b: int, col: Column): set<StatKey> {
    set row | row in HistRows(log, a, b, col) :: row.key
  }

  function HistValues(log: seq<LogRow>, a: int, b: int, col: Column, k: StatKey): set<string> {
    set row | row in HistRows(log, a, b, col) && row.key == k :: row.value
  }

  /** The histograms of all link-days, straight from the log. */
  function Histograms(log: seq<LogRow>, a: int, b: int, col: Column): Nested {
    map k | k in HistKeys(log, a, b, col) ::
      map x | x in HistValues(log, a, b, col, k) :: Count(log, InValueGroup(a, b, col, k, x))
  }

  /** One count per link-day and value. */
  lemma CountOfHistRow(log: seq<LogRow>, a: int, b: int, col: Column, row: HistRow)
    requires row in HistRows(log, a, b, col)
    ensures row.cnt == Count(log, InValueGroup(a, b, col, row.key, row.value))
  {
  }

  lemma SameInner(m: Nested, n: Nested, rows: set<HistRow>, k: StatKey)
    requires IsNested(m, rows) && IsNested(n, rows) && k in m
    ensures k in n && m[k] == n[k]
  {
    var row :| row in rows && row.key == k;
    forall x ensures x in m[k] <==> x in n[k] {
      if x in m[k] {
        assert HistRow(k, x, m[k][x]) in rows;
      }
      if x in n[k] {
        assert HistRow(k, x, n[k][x]) in rows;
      }
    }
    forall x | x in m[k] ensures m[k][x] == n[k][x] {
      assert HistRow(k, x, m[k][x]) in rows;
    }
  }

  /** A nested map is determined by its set of rows, so their order cannot matter. */
  lemma NestedUnique(m: Nested, n: Nested, rows: set<HistRow>)
    requires IsNested(m, rows) && IsNested(n, rows)
    ensures m == n
  {
    forall k | k in m ensures k in n && m[k] == n[k] {
      SameInner(m, n, rows, k);
    }
    forall k | k in n ensures k in m {
      SameInner(n, m, rows, k);
    }
  }

  lemma HistogramsAreNested(log: seq<LogRow>, a: int, b: int, col: Column)
    ensures IsNested(Histograms(log, a, b, col), HistRows(log, a, b, col))
  {
    var h, rows := Histograms(log, a, b, col), HistRows(log, a, b, col);
    forall row | row in rows
      ensures row.key in h && row.value in h[row.key] && h[row.key][row.value] == row.cnt
    {
      CountOfHistRow(log, a, b, col, row);
    }
    forall k, x | k in h && x in h[k] ensures HistRow(k, x, h[k][x]) in rows {
      assert x in HistValues(log, a, b, col, k);
      var row :| row in rows && row.key == k && row.value == x;
      CountOfHistRow(log, a, b, col, row);
      assert row == HistRow(k, x, h[k][x]);
    }
  }

  /** The rows of a grouping query, in whatever order the database produces them. */
  method RunGrouping(log: seq<LogRow>, a: int, b: int, col: Column) returns (rows: seq<HistRow>)
    ensures IsAnswer(rows, log, a, b, col)
  {
    var left := HistRows(log, a, b, col);
    rows := [];
    while left != {}
      invariant left <= HistRows(log, a, b, col)
      invariant forall row :: row in rows <==> row in HistRows(log, a, b, col) && row !in left
      invariant forall i, j :: 0 <= i < j < |rows| ==> rows[i] != rows[j]
      decreases |left|
    {
      var row :| row in left;
      rows := rows + [row];
      left := left - {row};
    }
  }

  function Prefix(rows: seq<HistRow>, n: nat): set<HistRow>
    requires n <= |rows|
  {
    set row | row in rows[..n]
  }

  lemma PrefixGrows(rows: seq<HistRow>, n: nat)
    requires n < |rows|
    ensures Prefix(rows, n + 1) == Prefix(rows, n) + {rows[n]}
  {
    assert rows[..n + 1] == rows[..n] + [rows[n]];
  }

  lemma OneRowPerValue(rows: seq<HistRow>, log: seq<LogRow>, a: int, b: int, col: Column, n: nat)
    requires IsAnswer(rows, log, a, b, col) && n < |rows|
    ensures forall r :: r in Prefix(rows, n) ==> r.key != rows[n].key || r.value != rows[n].value
  {
    forall r | r in Prefix(rows, n) ensures r.key != rows[n].key || r.value != rows[n].value {
      assert r in rows && rows[n] in rows && r != rows[n];
      CountOfHistRow(log, a, b, col, r);
      CountOfHistRow(log, a, b, col, rows[n]);
    }
  }

  lemma AddRow(nested: Nested, rows: set<HistRow>, row: HistRow, nested': Nested)
    requires IsNested(nested, rows)
    requires forall r :: r in rows ==> r.key != row.key || r.value != row.value
    requires var inner: map<string, nat> := if row.key in nested then nested[row.key] else map[];
      nested' == nested[row.key := inner[row.value := row.cnt]]
    ensures IsNested(nested', rows + {row})
  {
    forall k | k in nested' ensures exists r :: r in rows + {row} && r.key == k {
      if k == row.key {
        assert row in rows + {row};
      } else {
        var r :| r in rows && r.key == k;
        assert r in rows + {row};
      }
    }
  }

  lemma LoopStep(
      nested: Nested, nested': Nested, rows: seq<HistRow>, log: seq<LogRow>, a: int, b: int, col: Column, n: nat)
    requires IsAnswer(rows, log, a, b, col) && n < |rows|
    requires IsNested(nested, Prefix(rows, n))
    requires var inner: map<string, nat> := if rows[n].key in nested then nested[rows[n].key] else map[];
      nested' == nested[rows[n].key := inner[rows[n].value := rows[n].cnt]]
    ensures IsNested(nested', Prefix(rows, n + 1))
  {
    PrefixGrows(rows, n);
    OneRowPerValue(rows, log, a, b, col, n);
    AddRow(nested, Prefix(rows, n), rows[n], nested');
  }

  lemma LoopEnd(nested: Nested, rows: seq<HistRow>, log: seq<LogRow>, a: int, b: int, col: Column)
    requires IsAnswer(rows, log, a, b, col)
    requires IsNested(nested, Prefix(rows, |rows|))
    ensures nested == Histograms(log, a, b, col)
  {
    assert rows[..|rows|] == rows;
    assert Prefix(rows, |rows|) == HistRows(log, a, b, col);
    HistogramsAreNested(log, a, b, col);
    NestedUnique(nested, Histograms(log, a, b, col), HistRows(log, a, b, col));
  }

  lemma PutTwice(nested: Nested, k: StatKey, counts: map<string, nat>)
    ensures nested[k := map[]][k := counts] == nested[k := counts]
  {
  }

  /** The map-building loop: any order of the rows gives the direct histograms. */
  method BuildNested(rows: seq<HistRow>, ghost log: seq<LogRow>, ghost a: int, ghost b: int, ghost col: Column)
    returns (nested: Nested)
    requires IsAnswer(rows, log, a, b, col)
    ensures nested == Histograms(log, a, b, col)
  {
    nested := map[];
    for i := 0 to |rows|
      invariant IsNested(nested, Prefix(rows, i))
    {
      var row := rows[i];
      ghost var before := nested;
      if row.key !in nested {
        nested := nested[row.key := map[]];
      }
      var counts: map<string, nat> := nested[row.key];
      counts := counts[row.value := row.cnt];
      nested := nested[row.key := counts];

      PutTwice(before, row.key, counts);
      LoopStep(before, nested, rows, log, a, b, col, i);
    }
    LoopEnd(nested, rows, log, a, b, col);
  }

  /** One column is replaced in the row of every key of `nested`; a key without a row updates nothing. */
  function WithColumn(daily: map<StatKey, Stat>, col: Column, nested: Nested): map<StatKey, Stat> {
    map k | k in daily :: if k in nested then daily[k].Set(col, nested[k]) else daily[k]
  }

  /** The queued updates, applied in any order. */
  method ApplyUpdates(daily: map<StatKey, Stat>, col: Column, nested: Nested) returns (d: map<StatKey, Stat>)
    ensures d == WithColumn(daily, col, nested)
  {
    d := daily;
    var left := nested.Keys;
    while left != {}
      invariant left <= nested.Keys && d.Keys == daily.Keys
      invariant forall k :: k in daily ==>
        d[k] == if k in nested && k !in left then daily[k].Set(col, nested[k]) else daily[k]
      decreases |left|
    {
      var k :| k in left;
      if k in d {
        d := d[k := d[k].Set(col, nested[k])];
      }
      left := left - {k};
    }
    assert d == WithColumn(daily, col, nested);
  }

  /** What the statements make of `daily_stats` when they see the logs s1, s2 and s3. */
  function RolledUp(
      md5: Md5, daily: map<StatKey, Stat>, s1: seq<LogRow>, s2: seq<LogRow>, s3: seq<LogRow>, a: int, b: int)
    : map<StatKey, Stat>
  {
    WithColumn(
      WithColumn(UpsertDailyClicks(md5, daily, s1, a, b), Country, Histograms(s2, a, b, Country)),
      Referer, Histograms(s3, a, b, Referer))
  }

  // ---- The transaction

  /** Seven days. */
  const PROCESSED_KEY_TTL: int := 604800000000

  /**
   * How the outside calls of one aggregation go. `failAt` is the number of the statement that fails
   * (0: none), and `arrivals[i]` are the rows other transactions commit before statement i + 1.
   */
  datatype Outcomes = Outcomes(
    existsFails: bool, begin: bool, failAt: nat, commit: Reply, mark: Reply,
    arrivals: (seq<LogRow>, seq<LogRow>, seq<LogRow>, seq<LogRow>))
  {
    /** The log as statement n sees it. */
    function Seen(log: seq<LogRow>, n: nat): seq<LogRow> {
      if n == 0 then log
      else if n == 1 then log + arrivals.0
      else if n == 2 then log + arrivals.0 + arrivals.1
      else if n == 3 then log + arrivals.0 + arrivals.1 + arrivals.2
      else log + arrivals.0 + arrivals.1 + arrivals.2 + arrivals.3
    }
  }

  datatype Tables = Tables(log: seq<LogRow>, daily: map<StatKey, Stat>, totals: map<nat, nat>)

  /** The tables once the transaction over [a, b) is committed. */
  function AfterCommit(md5: Md5, t: Tables, o: Outcomes, a: int, b: int): Tables {
    Tables(o.Seen(t.log, 4),
           RolledUp(md5, t.daily, o.Seen(t.log, 1), o.Seen(t.log, 2), o.Seen(t.log, 3), a, b),
           IncrementTotalClicksSince(t.totals, o.Seen(t.log, 4), a))
  }

  predicate Marked(marks: map<string, int>, key: string, now: int) {
    key in marks && now < marks[key]
  }

  datatype Effect = Effect(tables: Tables, marks: map<string, int>, failed: bool)

  function AggregateEffect(
      md5: Md5, t: Tables, marks: map<string, int>, now: int, a: int, b: int, requestID: string, o: Outcomes): Effect
  {
    var key := ProcessedKey(requestID);
    if !o.existsFails && Marked(marks, key, now) then Effect(t, marks, false)
    else if !o.begin then Effect(t, marks, true)
    else if 1 <= o.failAt <= 4 then Effect(t.(log := o.Seen(t.log, o.failAt)), marks, true)
    else if o.commit.Refused? then Effect(t.(log := o.Seen(t.log, 4)), marks, true)
    else if o.commit.ReplyLost? then Effect(AfterCommit(md5, t, o, a, b), marks, true)
    else
      Effect(AfterCommit(md5, t, o, a, b),
             if o.mark.Refused? then marks else marks[key := now + PROCESSED_KEY_TTL], false)
  }

  class StatsAggregator {
    var log: seq<LogRow>
    var daily: map<StatKey, Stat>
    var totals: map<nat, nat>
    var marks: map<string, int>

    constructor ()
      ensures log == [] && daily == map[] && totals == map[] && marks == map[]
    {
      log, daily, totals, marks := [], map[], map[], map[];
    }

    /** The second and third statement, with the loops and the batch that follow them. */
    method SetColumn(txDaily: map<StatKey, Stat>, col: Column, a: int, b: int) returns (d: map<StatKey, Stat>)
      ensures d == WithColumn(txDaily, col, Histograms(log, a, b, col))
    {
      var rows := RunGrouping(log, a, b, col);
      var nested := BuildNested(rows, log, a, b, col);
      if |nested| > 0 {
        d := ApplyUpdates(txDaily, col, nested);
      } else {
        d := txDaily;
        assert d == WithColumn(txDaily, col, nested);
      }
    }

    method Aggregate(md5: Md5, startAt: int, endAt: int, requestID: string, now: int, o: Outcomes)
      returns (failed: bool)
      modifies this
      ensures Effect(Tables(log, daily, totals), marks, failed)
        == AggregateEffect(md5, old(Tables(log, daily, totals)), old(marks), now, startAt, endAt, requestID, o)
    {
      var key := ProcessedKey(requestID);
      if !o.existsFails {
        if key in marks && now < marks[key] {
          return false;
        }
      }
      if !o.begin {
        return true;
      }
      // What the transaction has written so far; nobody else writes these columns.
      var txDaily, txTotals := daily, totals;

      log := log + o.arrivals.0;
      if o.failAt == 1 {
        return true;
      }
      txDaily := UpsertDailyClicks(md5, txDaily, log, startAt, endAt);

      log := log + o.arrivals.1;
      if o.failAt == 2 {
        return true;
      }
      txDaily := SetColumn(txDaily, Country, startAt, endAt);

      log := log + o.arrivals.2;
      if o.failAt == 3 {
        return true;
      }
      txDaily := SetColumn(txDaily, Referer, startAt, endAt);

      log := log + o.arrivals.3;
      if o.failAt == 4 {
        return true;
      }
      txTotals := IncrementTotalClicksSince(txTotals, log, startAt);

      if o.commit.Refused? {
        return true;
      }
      daily, totals := txDaily, txTotals;
      if o.commit.ReplyLost? {
        return true;
      }
      if !o.mark.Refused? {
        marks := marks[key := now + PROCESSED_KEY_TTL];
      }
      return false;
    }
  }
}
