/** What the figures of a row say about the columns of `click_logs`, field by field. */
module Figures {
  import opened Options
  import opened Clicks
  import opened Queries
  import opened Rollup
  import opened RollupTheorems
  import opened Sums

  /** A click of link `l` in the 24 hours from `from` on. */
  predicate Clicked(r: LogRow, l: nat, from: int) {
    r.linkId == l && from <= r.clickedAt < from + 24 * 60 * 60 * 1000000
  }

  function ClicksAt(log: seq<LogRow>, l: nat, from: int): set<nat> {
    set i: nat | i < |log| && Clicked(log[i], l, from)
  }

  function FromCountry(log: seq<LogRow>, l: nat, from: int, x: string): set<nat> {
    set i: nat | i < |log| && Clicked(log[i], l, from) && log[i].country == Some(x)
  }

  function FromReferer(log: seq<LogRow>, l: nat, from: int, x: string): set<nat> {
    set i: nat | i < |log| && Clicked(log[i], l, from) && log[i].referer == Some(x)
  }

  /** Address and agent, one after the other, with nothing for a missing one. */
  function AddressAndAgent(r: LogRow): string {
    (if r.ip.Some? then r.ip.value else "") + (if r.userAgent.Some? then r.userAgent.value else "")
  }

  function Texts(log: seq<LogRow>, l: nat, from: int): set<string> {
    set i: nat | i < |log| && Clicked(log[i], l, from) :: AddressAndAgent(log[i])
  }

  function HashesOf(md5: Md5, texts: set<string>): set<string> {
    set x | x in texts :: md5(x)
  }

  lemma DayIsClicked(r: LogRow, k: StatKey)
    ensures KeyOf(r) == k <==> Clicked(r, k.linkId, DayStart(k.date))
  {
    DayMeaning(r.clickedAt, k.date);
  }

  lemma ClicksMeaning(log: seq<LogRow>, k: StatKey)
    ensures ClicksOn(log, k) == |ClicksAt(log, k.linkId, DayStart(k.date))|
  {
    CountIsPlaces(log, OnDay(k));
    forall i: nat | i < |log| ensures OnDay(k)(log[i]) <==> Clicked(log[i], k.linkId, DayStart(k.date)) {
      DayIsClicked(log[i], k);
    }
    assert Places(log, OnDay(k)) == ClicksAt(log, k.linkId, DayStart(k.date));
  }

  lemma RefererCount(log: seq<LogRow>, k: StatKey, x: string)
    ensures Count(log, WithValue(Referer, k, x)) == |FromReferer(log, k.linkId, DayStart(k.date), x)|
  {
    CountIsPlaces(log, WithValue(Referer, k, x));
    forall i: nat | i < |log| ensures KeyOf(log[i]) == k <==> Clicked(log[i], k.linkId, DayStart(k.date)) {
      DayIsClicked(log[i], k);
    }
    assert Places(log, WithValue(Referer, k, x)) == FromReferer(log, k.linkId, DayStart(k.date), x);
  }

  lemma CountryCount(log: seq<LogRow>, k: StatKey, x: string)
    ensures Count(log, WithValue(Country, k, x)) == |FromCountry(log, k.linkId, DayStart(k.date), x)|
  {
    CountIsPlaces(log, WithValue(Country, k, x));
    forall i: nat | i < |log| ensures KeyOf(log[i]) == k <==> Clicked(log[i], k.linkId, DayStart(k.date)) {
      DayIsClicked(log[i], k);
    }
    assert Places(log, WithValue(Country, k, x)) == FromCountry(log, k.linkId, DayStart(k.date), x);
  }

  lemma ListedIffCounted(log: seq<LogRow>, col: Column, k: StatKey, x: string)
    ensures x in HistOn(log, col, k) <==> Count(log, WithValue(col, k, x)) > 0
    ensures x in HistOn(log, col, k) ==> HistOn(log, col, k)[x] == Count(log, WithValue(col, k, x))
  {
    CountPositive(log, WithValue(col, k, x));
  }

  /** The referers of a day are the values of that column among the day's clicks, with their numbers. */
  lemma ReferersMeaning(log: seq<LogRow>, k: StatKey, x: string)
    ensures var rows, h := FromReferer(log, k.linkId, DayStart(k.date), x), HistOn(log, Referer, k);
      (x in h <==> rows != {}) && (x in h ==> h[x] == |rows|)
  {
    RefererCount(log, k, x);
    ListedIffCounted(log, Referer, k, x);
  }

  /** And the countries likewise. */
  lemma CountriesMeaning(log: seq<LogRow>, k: StatKey, x: string)
    ensures var rows, h := FromCountry(log, k.linkId, DayStart(k.date), x), HistOn(log, Country, k);
      (x in h <==> rows != {}) && (x in h ==> h[x] == |rows|)
  {
    CountryCount(log, k, x);
    ListedIffCounted(log, Country, k, x);
  }

  /** The referers of a day add up to its clicks that have one. */
  lemma ReferersAddUp(log: seq<LogRow>, k: StatKey)
    ensures var h := HistOn(log, Referer, k);
      var rows := set i: nat | i < |log| && Clicked(log[i], k.linkId, DayStart(k.date)) && log[i].referer.Some?;
      SumOver(h.Keys, Entries(h)) == |rows|
  {
    var rows := set i: nat | i < |log| && Clicked(log[i], k.linkId, DayStart(k.date)) && log[i].referer.Some?;
    HistogramSum(log, Referer, k);
    CountIsPlaces(log, HasValue(Referer, k));
    forall i: nat | i < |log| ensures KeyOf(log[i]) == k <==> Clicked(log[i], k.linkId, DayStart(k.date)) {
      DayIsClicked(log[i], k);
    }
    assert Places(log, HasValue(Referer, k)) == rows;
  }

  /** Visitors are the hashes of address and agent together: rows with equal texts are one visitor. */
  lemma VisitorsMeaning(md5: Md5, log: seq<LogRow>, k: StatKey)
    ensures VisitorsOn(md5, log, k) == HashesOf(md5, Texts(log, k.linkId, DayStart(k.date)))
  {
    forall i: nat | i < |log| ensures KeyOf(log[i]) == k <==> Clicked(log[i], k.linkId, DayStart(k.date)) {
      DayIsClicked(log[i], k);
    }
    forall h ensures h in VisitorsOn(md5, log, k) <==> h in HashesOf(md5, Texts(log, k.linkId, DayStart(k.date))) {
      if h in VisitorsOn(md5, log, k) {
        var r :| r in log && KeyOf(r) == k && md5(VisitorText(r)) == h;
        var i :| 0 <= i < |log| && log[i] == r;
        assert AddressAndAgent(log[i]) in Texts(log, k.linkId, DayStart(k.date));
      }
      if h in HashesOf(md5, Texts(log, k.linkId, DayStart(k.date))) {
        var i: nat :| i < |log| && Clicked(log[i], k.linkId, DayStart(k.date)) && md5(AddressAndAgent(log[i])) == h;
        assert log[i] in log;
      }
    }
  }

  ghost predicate Injective(md5: Md5) {
    forall x, y :: md5(x) == md5(y) ==> x == y
  }

  lemma {:induction false} HashesOfDistinct(md5: Md5, texts: set<string>)
    requires Injective(md5)
    ensures |HashesOf(md5, texts)| == |texts|
    decreases |texts|
  {
    if texts != {} {
      var x :| x in texts;
      HashesOfDistinct(md5, texts - {x});
      assert HashesOf(md5, texts) == HashesOf(md5, texts - {x}) + {md5(x)};
    }
  }

  /** Without collisions unique visitors are the distinct texts of address and agent. */
  lemma VisitorsAreTexts(md5: Md5, log: seq<LogRow>, k: StatKey)
    requires Injective(md5)
    ensures DirectStat(md5, log, k).visitors == |Texts(log, k.linkId, DayStart(k.date))|
  {
    VisitorsMeaning(md5, log, k);
    HashesOfDistinct(md5, Texts(log, k.linkId, DayStart(k.date)));
  }

  /** All figures of a row, in terms of the columns of the logged rows. */
  ghost predicate Describes(md5: Md5, row: Stat, log: seq<LogRow>, l: nat, from: int) {
    && row.clicks == |ClicksAt(log, l, from)|
    && row.visitors == |HashesOf(md5, Texts(log, l, from))|
    && (forall x :: x in row.countries <==> FromCountry(log, l, from, x) != {})
    && (forall x :: x in row.countries ==> row.countries[x] == |FromCountry(log, l, from, x)|)
    && (forall x :: x in row.referers <==> FromReferer(log, l, from, x) != {})
    && (forall x :: x in row.referers ==> row.referers[x] == |FromReferer(log, l, from, x)|)
  }

  lemma DirectDescribes(md5: Md5, log: seq<LogRow>, k: StatKey)
    ensures Describes(md5, DirectStat(md5, log, k), log, k.linkId, DayStart(k.date))
  {
    var row, from := DirectStat(md5, log, k), DayStart(k.date);
    ClicksMeaning(log, k);
    VisitorsMeaning(md5, log, k);
    forall x
      ensures x in row.countries <==> FromCountry(log, k.linkId, from, x) != {}
      ensures x in row.countries ==> row.countries[x] == |FromCountry(log, k.linkId, from, x)|
    {
      CountriesMeaning(log, k, x);
    }
    forall x
      ensures x in row.referers <==> FromReferer(log, k.linkId, from, x) != {}
      ensures x in row.referers ==> row.referers[x] == |FromReferer(log, k.linkId, from, x)|
    {
      ReferersMeaning(log, k, x);
    }
  }

  /**
   * After any history, an undisturbed committed aggregation leaves in its window exactly one row for
   * each link and day with clicks, which describes those clicks.
   */
  lemma AggregateDescribes(
      md5: Md5, es: seq<Happening>, i: int, j: int, id: string, now: int, o: Outcomes, k: StatKey)
    requires Quiet(o) && i <= k.date < j
    requires var h := History(md5, Tables([], map[], map[]), map[], es); Applies(o) && !Skipped(h.marks, id, now, o)
    ensures var h := History(md5, Tables([], map[], map[]), map[], es);
      var t' := AggregateEffect(md5, h.tables, h.marks, now, DayStart(i), DayStart(j), id, o).tables;
      if ClicksAt(t'.log, k.linkId, DayStart(k.date)) != {}
      then k in t'.daily && Describes(md5, t'.daily[k], t'.log, k.linkId, DayStart(k.date))
      else At(t'.daily, k) == At(h.tables.daily, k)
  {
    var h := History(md5, Tables([], map[], map[]), map[], es);
    var t' := AggregateEffect(md5, h.tables, h.marks, now, DayStart(i), DayStart(j), id, o).tables;
    AggregateIsExact(md5, es, i, j, id, now, o, k);
    ClicksMeaning(t'.log, k);
    DirectDescribes(md5, t'.log, k);
  }
}
