/** The link cache over the links table: create, get-miss-fill and delete as steps that may interleave and fail. */
module LinkCache {
  import opened Options
  import opened Slugs

  /** 30 * 24 hours. */
  const LINK_TTL: int := 2592000000000

  datatype Link = Link(slug: string, url: string, deleted: bool)

  type Links = map<nat, Link>

  /** The slug of a link id, computed by a library that is left uninterpreted. */
  type SlugOf = nat -> string

  predicate Same(s: string, t: string) {
    Unpadded(s) == Unpadded(t)
  }

  /** Link `id` answers to slug `s`, deleted or not. */
  predicate Owns(links: Links, id: nat, s: string) {
    id in links && Same(links[id].slug, s)
  }

  predicate LiveOwner(links: Links, id: nat, s: string) {
    Owns(links, id, s) && !links[id].deleted
  }

  ghost predicate IsLive(links: Links, s: string) {
    exists id :: LiveOwner(links, id, s)
  }

  /** GetLinkBySlug: the url of a live link that answers to `s`, if there is one. */
  ghost function Lookup(links: Links, s: string): Option<string> {
    if exists id :: LiveOwner(links, id, s) then
      var id :| LiveOwner(links, id, s);
      Some(links[id].url)
    else None
  }

  /** The width of the slug column and its UNIQUE constraint, which deleted links take part in. */
  predicate Accepts(links: Links, s: string) {
    |Unpadded(s)| <= 11 && forall id :: id in links ==> !Same(links[id].slug, s)
  }

  datatype Cached = Cached(url: string, until: int)

  /** A request between two of its calls. */
  datatype Handler =
    | Missed(slug: string)
    | Filling(slug: string, url: string, redirect: bool)
    | Deleting(slug: string)

  /** What GetLink told its caller: a redirect, or not found. */
  datatype Answer = Answer(slug: string, target: Option<string>, time: int)

  datatype State = State(
    links: Links, cache: map<string, Cached>, handlers: map<nat, Handler>, answers: seq<Answer>, now: int)
  {
    predicate Hit(s: string) {
      s in cache && now < cache[s].until
    }
  }

  datatype Event =
    | Wait(time: nat)
    | Create(h: nat, id: nat, url: string, replyLost: bool)
    | Get(h: nat, slug: string, readFails: bool)
    | Find(h: nat, dbFails: bool)
    | Fill(h: nat, applied: bool)
    | Del(h: nat, slug: string, applied: bool)
    | SoftDelete(h: nat, dbFails: bool)
    | Evict(key: string)
    | Crash(h: nat)

  /** Every link that answers to `s` is deleted from now on; the others are as they were. */
  function SoftDeleted(links: Links, s: string): Links {
    map id | id in links :: if Same(links[id].slug, s) then links[id].(deleted := true) else links[id]
  }

  ghost function Step(slugOf: SlugOf, st: State, e: Event): State {
    match e
    case Wait(d) => st.(now := st.now + d)
    case Create(h, id, url, replyLost) =>
      if h in st.handlers || id in st.links || !Accepts(st.links, slugOf(id)) then st
      else
        st.(links := st.links[id := Link(slugOf(id), url, false)],
            handlers := if replyLost then st.handlers else st.handlers[h := Filling(slugOf(id), url, false)])
    case Get(h, s, readFails) =>
      if h in st.handlers then st
      else if !readFails && st.Hit(s) then
        st.(answers := st.answers + [Answer(s, Some(st.cache[s].url), st.now)])
      else st.(handlers := st.handlers[h := Missed(s)])
    case Find(h, dbFails) =>
      if h !in st.handlers || !st.handlers[h].Missed? then st
      else
        var s := st.handlers[h].slug;
        var found := if dbFails then None else Lookup(st.links, s);
        if found.Some? then st.(handlers := st.handlers[h := Filling(s, found.value, true)])
        else st.(handlers := st.handlers - {h}, answers := st.answers + [Answer(s, None, st.now)])
    case Fill(h, applied) =>
      if h !in st.handlers || !st.handlers[h].Filling? then st
      else
        var p := st.handlers[h];
        st.(cache := if applied then st.cache[p.slug := Cached(p.url, st.now + LINK_TTL)] else st.cache,
            handlers := st.handlers - {h},
            answers := if p.redirect then st.answers + [Answer(p.slug, Some(p.url), st.now)] else st.answers)
    case Del(h, s, applied) =>
      if h in st.handlers then st
      else
        st.(cache := if applied then st.cache - {s} else st.cache, handlers := st.handlers[h := Deleting(s)])
    case SoftDelete(h, dbFails) =>
      if h !in st.handlers || !st.handlers[h].Deleting? then st
      else
        st.(links := if dbFails then st.links else SoftDeleted(st.links, st.handlers[h].slug),
            handlers := st.handlers - {h})
    case Evict(key) => st.(cache := st.cache - {key})
    case Crash(h) => st.(handlers := st.handlers - {h})
  }

  ghost function RunAll(slugOf: SlugOf, st: State, es: seq<Event>): State
    decreases |es|
  {
    if es == [] then st else RunAll(slugOf, Step(slugOf, st, es[0]), es[1..])
  }

  function Opened(now: int): State {
    State(map[], map[], map[], [], now)
  }

  // ---- Value integrity

  /** `url` is what the link that answers to `s` was created with. */
  ghost predicate Right(links: Links, s: string, url: string) {
    exists id :: Owns(links, id, s) && links[id].url == url
  }

  ghost predicate OneOwner(links: Links) {
    forall i, j :: i in links && j in links && Same(links[i].slug, links[j].slug) ==> i == j
  }

  ghost predicate CacheRight(st: State) {
    forall s :: s in st.cache ==> Right(st.links, s, st.cache[s].url) && st.cache[s].until <= st.now + LINK_TTL
  }

  ghost predicate HandlersRight(st: State) {
    forall h :: h in st.handlers && st.handlers[h].Filling? ==> Right(st.links, st.handlers[h].slug, st.handlers[h].url)
  }

  ghost predicate AnswersRight(st: State) {
    forall i :: 0 <= i < |st.answers| && st.answers[i].target.Some? ==>
      Right(st.links, st.answers[i].slug, st.answers[i].target.value)
  }

  ghost predicate Inv(st: State) {
    OneOwner(st.links) && CacheRight(st) && HandlersRight(st) && AnswersRight(st)
  }

  /** Links are never removed, and keep their slug and url; deletion is for good. */
  ghost predicate Grown(links: Links, links': Links) {
    forall id :: id in links ==>
      && id in links' && links'[id].slug == links[id].slug && links'[id].url == links[id].url
      && (links[id].deleted ==> links'[id].deleted)
  }

  lemma LookupMeaning(links: Links, s: string)
    requires OneOwner(links)
    ensures Lookup(links, s).None? <==> !IsLive(links, s)
    ensures forall id :: LiveOwner(links, id, s) ==> Lookup(links, s) == Some(links[id].url)
  {
  }

  lemma StepGrows(slugOf: SlugOf, st: State, e: Event)
    ensures Grown(st.links, Step(slugOf, st, e).links)
  {
  }

  lemma RightStays(links: Links, links': Links, s: string, url: string)
    requires Grown(links, links') && Right(links, s, url)
    ensures Right(links', s, url)
  {
    var id :| Owns(links, id, s) && links[id].url == url;
    assert Owns(links', id, s);
  }

  lemma StepKeepsOwner(slugOf: SlugOf, st: State, e: Event)
    requires OneOwner(st.links)
    ensures OneOwner(Step(slugOf, st, e).links)
  {
  }

  lemma FoundIsRight(links: Links, s: string)
    requires Lookup(links, s).Some?
    ensures Right(links, s, Lookup(links, s).value)
  {
    var id :| LiveOwner(links, id, s) && Lookup(links, s) == Some(links[id].url);
    assert Owns(links, id, s);
  }

  /** What is cached after a step was cached before, or was about to be written. */
  lemma CachedIsRight(slugOf: SlugOf, st: State, e: Event, s: string)
    requires CacheRight(st) && HandlersRight(st) && s in Step(slugOf, st, e).cache
    ensures var st' := Step(slugOf, st, e);
      Right(st.links, s, st'.cache[s].url) && st'.cache[s].until <= st'.now + LINK_TTL
  {
  }

  lemma StepKeepsCache(slugOf: SlugOf, st: State, e: Event)
    requires Inv(st)
    ensures CacheRight(Step(slugOf, st, e))
  {
    var st' := Step(slugOf, st, e);
    StepGrows(slugOf, st, e);
    forall s | s in st'.cache
      ensures Right(st'.links, s, st'.cache[s].url) && st'.cache[s].until <= st'.now + LINK_TTL
    {
      CachedIsRight(slugOf, st, e, s);
      RightStays(st.links, st'.links, s, st'.cache[s].url);
    }
  }

  lemma StepKeepsHandlers(slugOf: SlugOf, st: State, e: Event)
    requires Inv(st)
    ensures HandlersRight(Step(slugOf, st, e))
  {
    var st' := Step(slugOf, st, e);
    StepGrows(slugOf, st, e);
    forall h | h in st'.handlers && st'.handlers[h].Filling?
      ensures Right(st'.links, st'.handlers[h].slug, st'.handlers[h].url)
    {
      var p := st'.handlers[h];
      if h in st.handlers && st.handlers[h] == p {
        RightStays(st.links, st'.links, p.slug, p.url);
      } else if e.Find? {
        FoundIsRight(st.links, p.slug);
      } else {
        assert Owns(st'.links, e.id, p.slug);
      }
    }
  }

  lemma StepKeepsAnswers(slugOf: SlugOf, st: State, e: Event)
    requires Inv(st)
    ensures AnswersRight(Step(slugOf, st, e))
  {
    var st' := Step(slugOf, st, e);
    StepGrows(slugOf, st, e);
    forall i | 0 <= i < |st'.answers| && st'.answers[i].target.Some?
      ensures Right(st'.links, st'.answers[i].slug, st'.answers[i].target.value)
    {
      RightStays(st.links, st'.links, st'.answers[i].slug, st'.answers[i].target.value);
    }
  }

  lemma StepKeeps(slugOf: SlugOf, st: State, e: Event)
    requires Inv(st)
    ensures Inv(Step(slugOf, st, e))
  {
    StepKeepsOwner(slugOf, st, e);
    StepKeepsCache(slugOf, st, e);
    StepKeepsHandlers(slugOf, st, e);
    StepKeepsAnswers(slugOf, st, e);
  }

  lemma {:induction false} RunKeeps(slugOf: SlugOf, st: State, es: seq<Event>)
    requires Inv(st)
    ensures Inv(RunAll(slugOf, st, es)) && Grown(st.links, RunAll(slugOf, st, es).links)
    decreases |es|
  {
    if es != [] {
      StepKeeps(slugOf, st, es[0]);
      StepGrows(slugOf, st, es[0]);
      RunKeeps(slugOf, Step(slugOf, st, es[0]), es[1..]);
    }
  }

  /**
   * Value integrity, for every interleaving with every fault: whatever is cached for a slug, and every
   * redirect ever served for it, is the url of the one link that ever had that slug.
   */
  lemma ValueIntegrity(slugOf: SlugOf, start: int, es: seq<Event>, s: string, url: string)
    requires var st := RunAll(slugOf, Opened(start), es);
      || (s in st.cache && st.cache[s].url == url)
      || (exists i :: 0 <= i < |st.answers| && st.answers[i].slug == s && st.answers[i].target == Some(url))
    ensures var links := RunAll(slugOf, Opened(start), es).links;
      exists id :: Owns(links, id, s) && links[id].url == url && forall j :: Owns(links, j, s) ==> j == id
  {
    RunKeeps(slugOf, Opened(start), es);
    var links := RunAll(slugOf, Opened(start), es).links;
    assert Right(links, s, url);
    var id :| Owns(links, id, s) && links[id].url == url;
  }

  // ---- Transparency

  ghost predicate NoOverlap(st: State) {
    forall h, i :: h in st.handlers && i in st.handlers && st.handlers[h].Filling? && st.handlers[i].Deleting? ==>
      !Same(st.handlers[h].slug, st.handlers[i].slug)
  }

  /** No pending cache write for a slug ever coincides with a delete of it. */
  ghost predicate NeverOverlaps(slugOf: SlugOf, st: State, es: seq<Event>)
    decreases |es|
  {
    NoOverlap(st) && (es == [] || NeverOverlaps(slugOf, Step(slugOf, st, es[0]), es[1..]))
  }

  predicate DelDone(e: Event) {
    e.Del? ==> e.applied
  }

  /** The request spells its slug without trailing blanks. */
  predicate WellSpelled(e: Event) {
    e.Get? || e.Del? ==> Canonical(e.slug)
  }

  ghost predicate Careful(slugOf: SlugOf, st: State, es: seq<Event>) {
    NeverOverlaps(slugOf, st, es) && forall e :: e in es ==> DelDone(e) && WellSpelled(e)
  }

  ghost predicate SlugsCanonical(slugOf: SlugOf) {
    forall id :: Canonical(slugOf(id))
  }

  ghost predicate CacheLive(st: State) {
    forall s :: s in st.cache ==> Canonical(s) && IsLive(st.links, s)
  }

  ghost predicate FillsLive(st: State) {
    forall h :: h in st.handlers && st.handlers[h].Filling? ==> IsLive(st.links, st.handlers[h].slug)
  }

  ghost predicate DeletesDone(st: State) {
    forall h :: h in st.handlers ==>
      Canonical(st.handlers[h].slug) && (st.handlers[h].Deleting? ==> st.handlers[h].slug !in st.cache)
  }

  ghost predicate Clean(st: State) {
    CacheLive(st) && FillsLive(st) && DeletesDone(st)
  }

  lemma SameCanonical(s: string, t: string)
    requires Canonical(s) && Canonical(t) && Same(s, t)
    ensures s == t
  {
  }

  /** A slug stays live unless it is the one being deleted. */
  lemma StaysLive(slugOf: SlugOf, st: State, e: Event, s: string)
    requires IsLive(st.links, s)
    requires e.SoftDelete? && e.h in st.handlers && st.handlers[e.h].Deleting? ==> !Same(st.handlers[e.h].slug, s)
    ensures IsLive(Step(slugOf, st, e).links, s)
  {
    var id :| LiveOwner(st.links, id, s);
    assert LiveOwner(Step(slugOf, st, e).links, id, s);
  }

  lemma StepKeepsCacheLive(slugOf: SlugOf, st: State, e: Event)
    requires Clean(st) && NoOverlap(st) && DelDone(e) && WellSpelled(e)
    ensures CacheLive(Step(slugOf, st, e))
  {
    var st' := Step(slugOf, st, e);
    forall s | s in st'.cache ensures Canonical(s) && IsLive(st'.links, s) {
      if e.SoftDelete? && e.h in st.handlers && st.handlers[e.h].Deleting? && Same(st.handlers[e.h].slug, s) {
        SameCanonical(st.handlers[e.h].slug, s);
      }
      StaysLive(slugOf, st, e, s);
    }
  }

  lemma StepKeepsFillsLive(slugOf: SlugOf, st: State, e: Event)
    requires Clean(st) && NoOverlap(st)
    ensures FillsLive(Step(slugOf, st, e))
  {
    var st' := Step(slugOf, st, e);
    forall h | h in st'.handlers && st'.handlers[h].Filling? ensures IsLive(st'.links, st'.handlers[h].slug) {
      var p := st'.handlers[h];
      if h in st.handlers && st.handlers[h] == p {
        StaysLive(slugOf, st, e, p.slug);
      } else if e.Create? {
        assert LiveOwner(st'.links, e.id, p.slug);
      }
    }
  }

  lemma StepKeepsDeletes(slugOf: SlugOf, st: State, e: Event)
    requires SlugsCanonical(slugOf)
    requires Clean(st) && NoOverlap(st) && DelDone(e) && WellSpelled(e)
    ensures DeletesDone(Step(slugOf, st, e))
  {
    if e.Fill? && e.h in st.handlers && st.handlers[e.h].Filling? {
      assert forall i :: i in st.handlers && st.handlers[i].Deleting? ==> st.handlers[i].slug != st.handlers[e.h].slug;
    }
  }

  lemma StepKeepsClean(slugOf: SlugOf, st: State, e: Event)
    requires SlugsCanonical(slugOf)
    requires Clean(st) && NoOverlap(st) && DelDone(e) && WellSpelled(e)
    ensures Clean(Step(slugOf, st, e))
  {
    StepKeepsCacheLive(slugOf, st, e);
    StepKeepsFillsLive(slugOf, st, e);
    StepKeepsDeletes(slugOf, st, e);
  }

  lemma {:induction false} CarefulKeepsClean(slugOf: SlugOf, st: State, es: seq<Event>)
    requires SlugsCanonical(slugOf)
    requires Clean(st) && Careful(slugOf, st, es)
    ensures Clean(RunAll(slugOf, st, es))
    decreases |es|
  {
    if es != [] {
      assert es[0] in es && forall e :: e in es[1..] ==> e in es;
      StepKeepsClean(slugOf, st, es[0]);
      CarefulKeepsClean(slugOf, Step(slugOf, st, es[0]), es[1..]);
    }
  }

  /** What GetLink answers when nothing comes between its steps and the database works. */
  ghost function GetAnswer(st: State, s: string): Option<string> {
    if st.Hit(s) then Some(st.cache[s].url) else Lookup(st.links, s)
  }

  lemma CleanIsTransparent(st: State, s: string)
    requires Inv(st) && Clean(st)
    ensures GetAnswer(st, s) == Lookup(st.links, s)
  {
    if st.Hit(s) {
      var id :| Owns(st.links, id, s) && st.links[id].url == st.cache[s].url;
      var j :| LiveOwner(st.links, j, s);
      assert Same(st.links[id].slug, st.links[j].slug);
      LookupMeaning(st.links, s);
    }
  }

  /**
   * Transparency: in a careful run every cached slug is live, and GetLink answers, for every slug,
   * exactly as the database alone would.
   */
  lemma CarefulIsTransparent(slugOf: SlugOf, start: int, es: seq<Event>, s: string)
    requires SlugsCanonical(slugOf) && Careful(slugOf, Opened(start), es)
    ensures var st := RunAll(slugOf, Opened(start), es);
      && (s in st.cache ==> IsLive(st.links, s))
      && GetAnswer(st, s) == Lookup(st.links, s)
  {
    var st := RunAll(slugOf, Opened(start), es);
    RunKeeps(slugOf, Opened(start), es);
    CarefulKeepsClean(slugOf, Opened(start), es);
    CleanIsTransparent(st, s);
  }

  /** Answers are only ever added. */
  lemma StepKeepsHistory(slugOf: SlugOf, st: State, e: Event)
    ensures var st' := Step(slugOf, st, e);
      && |st.answers| <= |st'.answers| && forall i :: 0 <= i < |st.answers| ==> st'.answers[i] == st.answers[i]
  {
  }

  lemma DeletedIsNotLive(links: Links, id: nat, s: string)
    requires OneOwner(links) && Owns(links, id, s) && links[id].deleted
    ensures !IsLive(links, s)
  {
    forall j ensures !LiveOwner(links, j, s) {
      assert Owns(links, j, s) ==> Same(links[id].slug, links[j].slug);
    }
  }

  lemma CleanStepServesNoDeleted(slugOf: SlugOf, st: State, e: Event, id: nat, i: nat)
    requires Inv(st) && Clean(st) && id in st.links && st.links[id].deleted
    requires var st' := Step(slugOf, st, e);
      |st.answers| <= i < |st'.answers| && Owns(st.links, id, st'.answers[i].slug)
    ensures Step(slugOf, st, e).answers[i].target == None
  {
    DeletedIsNotLive(st.links, id, Step(slugOf, st, e).answers[i].slug);
  }

  lemma {:induction false} HistoryStays(slugOf: SlugOf, st: State, es: seq<Event>, i: nat)
    requires i < |st.answers|
    ensures var st' := RunAll(slugOf, st, es);
      i < |st'.answers| && st'.answers[i] == st.answers[i]
    decreases |es|
  {
    if es != [] {
      StepKeepsHistory(slugOf, st, es[0]);
      HistoryStays(slugOf, Step(slugOf, st, es[0]), es[1..], i);
    }
  }

  /** In a careful run no request that is decided after a link's delete has completed gets a redirect to it. */
  lemma {:induction false} NoRedirectAfterDelete(slugOf: SlugOf, st: State, es: seq<Event>, id: nat, i: nat)
    requires SlugsCanonical(slugOf)
    requires Inv(st) && Clean(st) && Careful(slugOf, st, es)
    requires id in st.links && st.links[id].deleted
    requires var st' := RunAll(slugOf, st, es);
      |st.answers| <= i < |st'.answers| && Owns(st.links, id, st'.answers[i].slug)
    ensures RunAll(slugOf, st, es).answers[i].target == None
    decreases |es|
  {
    var mid := Step(slugOf, st, es[0]);
    assert es[0] in es && forall e :: e in es[1..] ==> e in es;
    StepKeeps(slugOf, st, es[0]);
    StepGrows(slugOf, st, es[0]);
    StepKeepsClean(slugOf, st, es[0]);
    if i < |mid.answers| {
      HistoryStays(slugOf, mid, es[1..], i);
      CleanStepServesNoDeleted(slugOf, st, es[0], id, i);
    } else {
      NoRedirectAfterDelete(slugOf, mid, es[1..], id, i);
    }
  }

  // ---- How a stale entry comes about

  /** A cached url that would be served although the database has no live link for it. */
  ghost predicate Stale(st: State, s: string) {
    st.Hit(s) && !IsLive(st.links, s)
  }

  /** The step deletes a link while some spelling of its slug is cached, or it fills in a deleted link. */
  ghost predicate MakesStale(st: State, e: Event, s: string) {
    match e
    case SoftDelete(h, dbFails) =>
      !dbFails && h in st.handlers && st.handlers[h].Deleting? && Same(st.handlers[h].slug, s) && st.Hit(s)
    case Fill(h, applied) =>
      applied && h in st.handlers && st.handlers[h].Filling? && st.handlers[h].slug == s && !IsLive(st.links, s)
    case _ => false
  }

  lemma StaysLiveUnlessDeleted(slugOf: SlugOf, st: State, e: Event, s: string)
    requires st.Hit(s) && IsLive(st.links, s) && !MakesStale(st, e, s)
    ensures IsLive(Step(slugOf, st, e).links, s)
  {
    var id :| LiveOwner(st.links, id, s);
    assert LiveOwner(Step(slugOf, st, e).links, id, s);
  }

  /** Staleness has exactly these two origins, in every interleaving. */
  lemma StaleArises(slugOf: SlugOf, st: State, e: Event, s: string)
    requires Inv(st) && !Stale(st, s)
    ensures Stale(Step(slugOf, st, e), s) <==> MakesStale(st, e, s)
  {
    var st' := Step(slugOf, st, e);
    if MakesStale(st, e, s) {
      forall id ensures !LiveOwner(st'.links, id, s) {
      }
    } else if st.Hit(s) {
      StaysLiveUnlessDeleted(slugOf, st, e, s);
    }
  }

  /** A stale entry has a cause: an overlap, a DEL that Redis did not do, or a padded spelling. */
  lemma StaleHasCause(slugOf: SlugOf, start: int, es: seq<Event>, s: string)
    requires SlugsCanonical(slugOf)
    requires Stale(RunAll(slugOf, Opened(start), es), s)
    ensures !NeverOverlaps(slugOf, Opened(start), es) || exists e :: e in es && !(DelDone(e) && WellSpelled(e))
  {
    if Careful(slugOf, Opened(start), es) {
      CarefulIsTransparent(slugOf, start, es, s);
    }
  }

  // ---- Each cause alone is enough

  lemma {:induction false} RunAllAppend(slugOf: SlugOf, st: State, a: seq<Event>, b: seq<Event>)
    ensures RunAll(slugOf, st, a + b) == RunAll(slugOf, RunAll(slugOf, st, a), b)
    ensures NeverOverlaps(slugOf, st, a) && NeverOverlaps(slugOf, RunAll(slugOf, st, a), b) ==>
      NeverOverlaps(slugOf, st, a + b)
    decreases |a|
  {
    if a == [] {
      assert a + b == b;
    } else {
      assert (a + b)[1..] == a[1..] + b;
      RunAllAppend(slugOf, Step(slugOf, st, a[0]), a[1..], b);
    }
  }

  lemma Unroll(slugOf: SlugOf, st: State, es: seq<Event>)
    requires es != []
    ensures var mid := Step(slugOf, st, es[0]);
      && RunAll(slugOf, st, es) == RunAll(slugOf, mid, es[1..])
      && (NeverOverlaps(slugOf, st, es) <==> NoOverlap(st) && NeverOverlaps(slugOf, mid, es[1..]))
  {
  }

  lemma Two(slugOf: SlugOf, st: State, a: Event, b: Event)
    ensures RunAll(slugOf, st, [a, b]) == Step(slugOf, Step(slugOf, st, a), b)
    ensures NeverOverlaps(slugOf, st, [a, b]) <==>
      NoOverlap(st) && NoOverlap(Step(slugOf, st, a)) && NoOverlap(Step(slugOf, Step(slugOf, st, a), b))
  {
    Unroll(slugOf, st, [a, b]);
    assert [a, b][1..] == [b];
    Unroll(slugOf, Step(slugOf, st, a), [b]);
    assert [b][1..] == [];
  }

  lemma Three(slugOf: SlugOf, st: State, a: Event, b: Event, c: Event)
    ensures var st2 := Step(slugOf, Step(slugOf, st, a), b);
      && RunAll(slugOf, st, [a, b, c]) == Step(slugOf, st2, c)
      && (NeverOverlaps(slugOf, st, [a, b, c]) <==>
          NoOverlap(st) && NoOverlap(Step(slugOf, st, a)) && NoOverlap(st2) && NoOverlap(Step(slugOf, st2, c)))
  {
    Unroll(slugOf, st, [a, b, c]);
    assert [a, b, c][1..] == [b, c];
    Two(slugOf, Step(slugOf, st, a), b, c);
  }

  /** The redirect handler's answer when `found` is what the database would give it. */
  function Answered(st: State, s: string, readFails: bool, found: Option<string>): Option<string> {
    if !readFails && st.Hit(s) then Some(st.cache[s].url) else found
  }

  /** The first two steps of the redirect handler: a hit ends it, and so does a miss that finds nothing. */
  lemma GetAndFind(slugOf: SlugOf, st: State, h: nat, s: string, readFails: bool, dbFails: bool)
    requires h !in st.handlers
    ensures var st1 := Step(slugOf, st, Get(h, s, readFails));
      var st2 := Step(slugOf, st1, Find(h, dbFails));
      var found := if dbFails then None else Lookup(st.links, s);
      && (NoOverlap(st) ==> NoOverlap(st1))
      && st2 == if (readFails || !st.Hit(s)) && found.Some?
                then st.(handlers := st.handlers[h := Filling(s, found.value, true)])
                else st.(answers := st.answers + [Answer(s, Answered(st, s, readFails, found), st.now)])
  {
    var st1 := Step(slugOf, st, Get(h, s, readFails));
    var st2 := Step(slugOf, st1, Find(h, dbFails));
    if readFails || !st.Hit(s) {
      assert st1.handlers == st.handlers[h := Missed(s)];
      assert st1.handlers - {h} == st.handlers;
    }
  }

  lemma FillAlone(slugOf: SlugOf, st: State, h: nat, s: string, url: string, applied: bool)
    requires st.handlers == map[h := Filling(s, url, true)]
    ensures Step(slugOf, st, Fill(h, applied))
      == st.(cache := if applied then st.cache[s := Cached(url, st.now + LINK_TTL)] else st.cache, handlers := map[],
             answers := st.answers + [Answer(s, Some(url), st.now)])
  {
    assert st.handlers - {h} == map[];
  }

  function Visit(s: string): seq<Event> {
    [Get(1, s, false), Find(1, false), Fill(1, true)]
  }

  function Deletion(s: string, applied: bool): seq<Event> {
    [Del(2, s, applied), SoftDelete(2, false)]
  }

  /** A delete, with a whole lookup between its DEL and its update, and the cache write afterwards. */
  function LookedUpMidway(s: string): seq<Event> {
    [Del(2, s, true), Get(1, s, false), Find(1, false)]
  }

  function FilledLate(): seq<Event> {
    [SoftDelete(2, false), Fill(1, true)]
  }

  lemma VisitCaches(slugOf: SlugOf, st: State, s: string)
    requires st.handlers == map[] && OneOwner(st.links) && IsLive(st.links, s)
    ensures var st' := RunAll(slugOf, st, Visit(s));
      st'.Hit(s) && st'.links == st.links && st'.handlers == map[]
    ensures NeverOverlaps(slugOf, st, Visit(s))
  {
    LookupMeaning(st.links, s);
    Three(slugOf, st, Get(1, s, false), Find(1, false), Fill(1, true));
    GetAndFind(slugOf, st, 1, s, false, false);
    if !st.Hit(s) {
      var url := Lookup(st.links, s).value;
      FillAlone(slugOf, st.(handlers := map[1 := Filling(s, url, true)]), 1, s, url, true);
    }
  }

  lemma DeletionLeaves(slugOf: SlugOf, st: State, s: string, applied: bool, t: string)
    requires st.handlers == map[] && Same(s, t) && st.Hit(t) && (applied ==> s != t)
    ensures Stale(RunAll(slugOf, st, Deletion(s, applied)), t)
    ensures NeverOverlaps(slugOf, st, Deletion(s, applied))
  {
    var st1 := Step(slugOf, st, Del(2, s, applied));
    var st2 := Step(slugOf, st1, SoftDelete(2, false));
    Two(slugOf, st, Del(2, s, applied), SoftDelete(2, false));
    assert forall id :: !LiveOwner(st2.links, id, t);
  }

  /** The padded spelling of any live slug, visited once, outlives the delete: no overlap, no fault. */
  lemma PaddedSpellingStaysStale(slugOf: SlugOf, st: State, s: string)
    requires st.handlers == map[] && OneOwner(st.links) && IsLive(st.links, s)
    ensures var es := Visit(s + " ") + Deletion(s, true);
      && NeverOverlaps(slugOf, st, es) && (forall e :: e in es ==> DelDone(e))
      && Stale(RunAll(slugOf, st, es), s + " ")
  {
    assert (s + " ")[..|s|] == s;
    assert Same(s, s + " ");
    var id :| LiveOwner(st.links, id, s);
    assert LiveOwner(st.links, id, s + " ");
    VisitCaches(slugOf, st, s + " ");
    DeletionLeaves(slugOf, RunAll(slugOf, st, Visit(s + " ")), s, true, s + " ");
    RunAllAppend(slugOf, st, Visit(s + " "), Deletion(s, true));
  }

  /** A DEL that fails is only logged: the entry outlives the delete. */
  lemma FailedDelStaysStale(slugOf: SlugOf, st: State, s: string)
    requires st.handlers == map[] && OneOwner(st.links) && IsLive(st.links, s) && Canonical(s)
    ensures var es := Visit(s) + Deletion(s, false);
      && NeverOverlaps(slugOf, st, es) && (forall e :: e in es ==> WellSpelled(e))
      && Stale(RunAll(slugOf, st, es), s)
  {
    VisitCaches(slugOf, st, s);
    DeletionLeaves(slugOf, RunAll(slugOf, st, Visit(s)), s, false, s);
    RunAllAppend(slugOf, st, Visit(s), Deletion(s, false));
  }

  lemma MidwayState(slugOf: SlugOf, st: State, s: string)
    requires st.handlers == map[] && OneOwner(st.links) && IsLive(st.links, s)
    ensures var hs := RunAll(slugOf, st, LookedUpMidway(s)).handlers;
      1 in hs && 2 in hs && hs[1].Filling? && hs[1].slug == s && hs[2] == Deleting(s)
  {
    LookupMeaning(st.links, s);
    Three(slugOf, st, Del(2, s, true), Get(1, s, false), Find(1, false));
    GetAndFind(slugOf, Step(slugOf, st, Del(2, s, true)), 1, s, false, false);
  }

  lemma LateFillIsStale(slugOf: SlugOf, st: State, s: string)
    requires 1 in st.handlers && st.handlers[1].Filling? && st.handlers[1].slug == s
    requires 2 in st.handlers && st.handlers[2] == Deleting(s)
    ensures Stale(RunAll(slugOf, st, FilledLate()), s)
  {
    var st1 := Step(slugOf, st, SoftDelete(2, false));
    Two(slugOf, st, SoftDelete(2, false), Fill(1, true));
    assert forall id :: !LiveOwner(st1.links, id, s);
  }

  /** An overlap is enough too, with every call succeeding. */
  lemma OverlapStaysStale(slugOf: SlugOf, st: State, s: string)
    requires st.handlers == map[] && OneOwner(st.links) && IsLive(st.links, s) && Canonical(s)
    ensures var es := LookedUpMidway(s) + FilledLate();
      && (forall e :: e in es ==> DelDone(e) && WellSpelled(e))
      && Stale(RunAll(slugOf, st, es), s)
  {
    MidwayState(slugOf, st, s);
    LateFillIsStale(slugOf, RunAll(slugOf, st, LookedUpMidway(s)), s);
    RunAllAppend(slugOf, st, LookedUpMidway(s), FilledLate());
  }

  // ---- Lifetimes and faults

  /** A filled entry is a hit for 30 days, and no other entry is touched. */
  lemma FilledForThirtyDays(slugOf: SlugOf, st: State, h: nat, d: nat)
    requires h in st.handlers && st.handlers[h].Filling?
    ensures var p, st' := st.handlers[h], Step(slugOf, Step(slugOf, st, Fill(h, true)), Wait(d));
      && (st'.Hit(p.slug) <==> d < 30 * 24 * 60 * 60 * 1000000)
      && p.slug in st'.cache && st'.cache[p.slug].url == p.url
      && forall t :: t != p.slug ==>
           (t in st'.cache <==> t in st.cache) && (t in st'.cache ==> st'.cache[t] == st.cache[t])
  {
  }

  /** An eviction takes one entry, a crash one request. */
  lemma FaultsTakeOneThing(slugOf: SlugOf, st: State, key: string, h: nat)
    ensures Step(slugOf, st, Evict(key)) == st.(cache := st.cache - {key})
    ensures Step(slugOf, st, Crash(h)) == st.(handlers := st.handlers - {h})
  {
  }

  // ---- How long a stale entry can live

  /** Nothing fills in, and nothing that is cached outlives `limit`, for the deleted link `id`. */
  ghost predicate Fading(st: State, id: nat, limit: int) {
    && id in st.links && st.links[id].deleted
    && (forall h :: h in st.handlers && st.handlers[h].Filling? ==> !Owns(st.links, id, st.handlers[h].slug))
    && (forall s :: s in st.cache && Owns(st.links, id, s) ==> st.cache[s].until <= limit)
  }

  lemma OwnsStays(slugOf: SlugOf, st: State, e: Event, id: nat, s: string)
    requires id in st.links
    ensures Owns(Step(slugOf, st, e).links, id, s) <==> Owns(st.links, id, s)
  {
    StepGrows(slugOf, st, e);
  }

  lemma StepKeepsFillsFading(slugOf: SlugOf, st: State, e: Event, id: nat, limit: int, h: nat)
    requires OneOwner(st.links) && Fading(st, id, limit)
    requires h in Step(slugOf, st, e).handlers && Step(slugOf, st, e).handlers[h].Filling?
    ensures !Owns(st.links, id, Step(slugOf, st, e).handlers[h].slug)
  {
    var s := Step(slugOf, st, e).handlers[h].slug;
    if e.Find? && e.h == h && Owns(st.links, id, s) {
      DeletedIsNotLive(st.links, id, s);
    }
  }

  lemma StepKeepsCacheFading(slugOf: SlugOf, st: State, e: Event, id: nat, limit: int, s: string)
    requires Fading(st, id, limit) && s in Step(slugOf, st, e).cache && Owns(st.links, id, s)
    ensures Step(slugOf, st, e).cache[s].until <= limit
  {
  }

  lemma StepKeepsFading(slugOf: SlugOf, st: State, e: Event, id: nat, limit: int)
    requires OneOwner(st.links) && Fading(st, id, limit)
    ensures Fading(Step(slugOf, st, e), id, limit)
  {
    var st' := Step(slugOf, st, e);
    StepGrows(slugOf, st, e);
    forall h | h in st'.handlers && st'.handlers[h].Filling? ensures !Owns(st'.links, id, st'.handlers[h].slug) {
      StepKeepsFillsFading(slugOf, st, e, id, limit, h);
      OwnsStays(slugOf, st, e, id, st'.handlers[h].slug);
    }
    forall s | s in st'.cache && Owns(st'.links, id, s) ensures st'.cache[s].until <= limit {
      OwnsStays(slugOf, st, e, id, s);
      StepKeepsCacheFading(slugOf, st, e, id, limit, s);
    }
  }

  lemma FadingStepServes(slugOf: SlugOf, st: State, e: Event, id: nat, limit: int, i: nat)
    requires OneOwner(st.links) && Fading(st, id, limit)
    requires var st' := Step(slugOf, st, e);
      |st.answers| <= i < |st'.answers| && Owns(st.links, id, st'.answers[i].slug) && st'.answers[i].target.Some?
    ensures Step(slugOf, st, e).answers[i].time < limit
  {
  }

  lemma {:induction false} FadingRunServes(slugOf: SlugOf, st: State, es: seq<Event>, id: nat, limit: int, i: nat)
    requires OneOwner(st.links) && Fading(st, id, limit)
    requires var st' := RunAll(slugOf, st, es);
      |st.answers| <= i < |st'.answers| && Owns(st.links, id, st'.answers[i].slug) && st'.answers[i].target.Some?
    ensures RunAll(slugOf, st, es).answers[i].time < limit
    decreases |es|
  {
    var mid := Step(slugOf, st, es[0]);
    StepKeepsOwner(slugOf, st, es[0]);
    StepKeepsFading(slugOf, st, es[0], id, limit);
    if i < |mid.answers| {
      HistoryStays(slugOf, mid, es[1..], i);
      FadingStepServes(slugOf, st, es[0], id, limit, i);
    } else {
      OwnsStays(slugOf, st, es[0], id, RunAll(slugOf, st, es).answers[i].slug);
      FadingRunServes(slugOf, mid, es[1..], id, limit, i);
    }
  }

  /**
   * Bounded staleness, whatever overlaps and fails: once a link is deleted and the cache writes that
   * were pending for it are through, no redirect for it is served 30 days later or after.
   */
  lemma StaleAtMostThirtyDays(slugOf: SlugOf, start: int, before: seq<Event>, after: seq<Event>, id: nat, i: nat)
    requires var st := RunAll(slugOf, Opened(start), before);
      && id in st.links && st.links[id].deleted
      && (forall h :: h in st.handlers && st.handlers[h].Filling? ==> !Owns(st.links, id, st.handlers[h].slug))
    requires var st, st' := RunAll(slugOf, Opened(start), before), RunAll(slugOf, Opened(start), before + after);
      |st.answers| <= i < |st'.answers| && Owns(st.links, id, st'.answers[i].slug) && st'.answers[i].target.Some?
    ensures RunAll(slugOf, Opened(start), before + after).answers[i].time
      < RunAll(slugOf, Opened(start), before).now + LINK_TTL
  {
    var st := RunAll(slugOf, Opened(start), before);
    RunKeeps(slugOf, Opened(start), before);
    RunAllAppend(slugOf, Opened(start), before, after);
    FadingRunServes(slugOf, st, after, id, st.now + LINK_TTL, i);
  }
}
