/** The link handlers themselves, one request at a time, against the steps of the link cache. */
module LinkHandlers {
  import opened Options
  import opened Replies
  import opened Slugs
  import opened LinkCache

  function Creation(id: nat, url: string, tx: Reply, setApplied: bool): seq<Event> {
    if tx.Refused? then [] else [Create(0, id, url, tx.ReplyLost?), Fill(0, setApplied)]
  }

  function Redirection(slug: string, readFails: bool, dbFails: bool, setApplied: bool): seq<Event> {
    [Get(0, slug, readFails), Find(0, dbFails), Fill(0, setApplied)]
  }

  function Removal(slug: string, applied: bool, dbFails: bool): seq<Event> {
    [Del(0, slug, applied), SoftDelete(0, dbFails)]
  }

  predicate Alone(st: State) {
    st.handlers == map[]
  }

  // ---- The handlers' effects, and the steps they are made of

  /** Whether the transaction takes effect, and whether the cache write then made does. */
  predicate Stores(slugOf: SlugOf, st: State, id: nat, tx: Reply) {
    !tx.Refused? && Accepts(st.links, slugOf(id))
  }

  function AfterCreation(st: State, id: nat, slug: string, url: string, stored: bool, cached: bool): State {
    if !stored then st
    else
      st.(links := st.links[id := Link(slug, url, false)],
          cache := if cached then st.cache[slug := Cached(url, st.now + LINK_TTL)] else st.cache)
  }

  function AfterRedirection(st: State, s: string, readFails: bool, found: Option<string>, setApplied: bool): State {
    st.(cache := if (readFails || !st.Hit(s)) && found.Some? && setApplied
                 then st.cache[s := Cached(found.value, st.now + LINK_TTL)] else st.cache,
        answers := st.answers + [Answer(s, Answered(st, s, readFails, found), st.now)])
  }

  function AfterRemoval(st: State, s: string, applied: bool, dbFails: bool): State {
    st.(links := if dbFails then st.links else SoftDeleted(st.links, s),
        cache := if applied then st.cache - {s} else st.cache)
  }

  lemma CreationSteps(slugOf: SlugOf, st: State, id: nat, url: string, tx: Reply, setApplied: bool)
    requires Alone(st) && id !in st.links
    ensures RunAll(slugOf, st, Creation(id, url, tx, setApplied))
      == AfterCreation(st, id, slugOf(id), url, Stores(slugOf, st, id, tx), tx.Fine? && setApplied)
    ensures NeverOverlaps(slugOf, st, Creation(id, url, tx, setApplied))
  {
    if !tx.Refused? {
      Two(slugOf, st, Create(0, id, url, tx.ReplyLost?), Fill(0, setApplied));
    }
  }

  lemma LastOfRedirection(
      slugOf: SlugOf, st: State, st2: State, s: string, readFails: bool, found: Option<string>, setApplied: bool)
    requires Alone(st)
    requires st2 == if (readFails || !st.Hit(s)) && found.Some?
                    then st.(handlers := map[0 := Filling(s, found.value, true)])
                    else st.(answers := st.answers + [Answer(s, Answered(st, s, readFails, found), st.now)])
    ensures Step(slugOf, st2, Fill(0, setApplied)) == AfterRedirection(st, s, readFails, found, setApplied)
    ensures NoOverlap(st2) && NoOverlap(Step(slugOf, st2, Fill(0, setApplied)))
  {
    if (readFails || !st.Hit(s)) && found.Some? {
      FillAlone(slugOf, st2, 0, s, found.value, setApplied);
    }
  }

  lemma RedirectionSteps(slugOf: SlugOf, st: State, s: string, readFails: bool, dbFails: bool, setApplied: bool)
    requires Alone(st)
    ensures RunAll(slugOf, st, Redirection(s, readFails, dbFails, setApplied))
      == AfterRedirection(st, s, readFails, if dbFails then None else Lookup(st.links, s), setApplied)
    ensures NeverOverlaps(slugOf, st, Redirection(s, readFails, dbFails, setApplied))
  {
    var st2 := Step(slugOf, Step(slugOf, st, Get(0, s, readFails)), Find(0, dbFails));
    var found := if dbFails then None else Lookup(st.links, s);
    Three(slugOf, st, Get(0, s, readFails), Find(0, dbFails), Fill(0, setApplied));
    GetAndFind(slugOf, st, 0, s, readFails, dbFails);
    LastOfRedirection(slugOf, st, st2, s, readFails, found, setApplied);
  }

  lemma RemovalSteps(slugOf: SlugOf, st: State, s: string, applied: bool, dbFails: bool)
    requires Alone(st)
    ensures RunAll(slugOf, st, Removal(s, applied, dbFails)) == AfterRemoval(st, s, applied, dbFails)
    ensures NeverOverlaps(slugOf, st, Removal(s, applied, dbFails))
  {
    Two(slugOf, st, Del(0, s, applied), SoftDelete(0, dbFails));
  }

  // ---- What the handlers keep, one request at a time

  lemma AloneKeeps(slugOf: SlugOf, st: State, es: seq<Event>)
    requires SlugsCanonical(slugOf) && Inv(st) && NeverOverlaps(slugOf, st, es)
    ensures Inv(RunAll(slugOf, st, es))
    ensures Clean(st) && (forall e :: e in es ==> DelDone(e) && WellSpelled(e)) ==> Clean(RunAll(slugOf, st, es))
  {
    RunKeeps(slugOf, st, es);
    if Clean(st) && forall e :: e in es ==> DelDone(e) && WellSpelled(e) {
      CarefulKeepsClean(slugOf, st, es);
    }
  }

  /** A slug of another link, deleted or not. */
  ghost predicate Taken(links: Links, slug: string) {
    exists id :: id in links && Unpadded(links[id].slug) == Unpadded(slug)
  }

  lemma StoresMeaning(slugOf: SlugOf, st: State, id: nat, tx: Reply)
    ensures Stores(slugOf, st, id, tx) <==>
      !tx.Refused? && |Unpadded(slugOf(id))| <= 11 && !Taken(st.links, slugOf(id))
  {
  }

  lemma CreationKeeps(slugOf: SlugOf, st: State, id: nat, url: string, tx: Reply, setApplied: bool)
    requires SlugsCanonical(slugOf) && Alone(st) && Inv(st) && id !in st.links
    ensures var st' := AfterCreation(st, id, slugOf(id), url, Stores(slugOf, st, id, tx), tx.Fine? && setApplied);
      Inv(st') && (Clean(st) ==> Clean(st'))
  {
    CreationSteps(slugOf, st, id, url, tx, setApplied);
    AloneKeeps(slugOf, st, Creation(id, url, tx, setApplied));
  }

  /** A link whose creation is answered is found from then on. */
  lemma CreatedIsFound(links: Links, id: nat, slug: string, url: string)
    requires OneOwner(links) && id in links && links[id] == Link(slug, url, false)
    ensures Lookup(links, slug) == Some(url)
  {
    LookupMeaning(links, slug);
    assert LiveOwner(links, id, slug);
  }

  /** As long as nothing stale is cached, the answer of the redirect handler is the database's own. */
  lemma RedirectionKeeps(slugOf: SlugOf, st: State, s: string, readFails: bool, dbFails: bool, setApplied: bool)
    requires SlugsCanonical(slugOf) && Alone(st) && Inv(st)
    ensures var found := if dbFails then None else Lookup(st.links, s);
      var st', target := AfterRedirection(st, s, readFails, found, setApplied), Answered(st, s, readFails, found);
      && Inv(st') && (Clean(st) && Canonical(s) ==> Clean(st'))
      && (Clean(st) && !dbFails ==> target == Lookup(st.links, s))
      && (target.Some? ==> Right(st.links, s, target.value))
  {
    RedirectionSteps(slugOf, st, s, readFails, dbFails, setApplied);
    AloneKeeps(slugOf, st, Redirection(s, readFails, dbFails, setApplied));
    if Clean(st) {
      CleanIsTransparent(st, s);
    }
    if Lookup(st.links, s).Some? {
      FoundIsRight(st.links, s);
    }
  }

  lemma RemovalKeeps(slugOf: SlugOf, st: State, s: string, applied: bool, dbFails: bool)
    requires SlugsCanonical(slugOf) && Alone(st) && Inv(st)
    ensures var st' := AfterRemoval(st, s, applied, dbFails);
      Inv(st') && (Clean(st) && Canonical(s) && applied ==> Clean(st'))
  {
    assert Canonical(s) && applied ==> forall e :: e in Removal(s, applied, dbFails) ==> DelDone(e) && WellSpelled(e);
    RemovalSteps(slugOf, st, s, applied, dbFails);
    AloneKeeps(slugOf, st, Removal(s, applied, dbFails));
  }

  /** After a delete the database no longer finds the slug, and, if its DEL was done, neither does GetLink. */
  lemma RemovedIsGone(st: State, s: string, applied: bool)
    ensures var st' := AfterRemoval(st, s, applied, false);
      Lookup(st'.links, s) == None && (applied ==> GetAnswer(st', s) == None)
  {
    var st' := AfterRemoval(st, s, applied, false);
    assert forall id :: !LiveOwner(st'.links, id, s);
  }

  lemma OtherSlugsStay(links: Links, s: string, t: string)
    requires OneOwner(links) && Unpadded(t) != Unpadded(s)
    ensures Lookup(SoftDeleted(links, s), t) == Lookup(links, t)
  {
    LookupMeaning(links, t);
    LookupMeaning(SoftDeleted(links, s), t);
    assert forall id :: LiveOwner(SoftDeleted(links, s), id, t) <==> LiveOwner(links, id, t);
  }

  /** A delete changes no link with another slug, and clears at most the entry of this spelling. */
  lemma RemovalTouchesOneSlug(st: State, s: string, applied: bool, dbFails: bool, t: string)
    requires OneOwner(st.links)
    ensures var st' := AfterRemoval(st, s, applied, dbFails);
      && (Unpadded(t) != Unpadded(s) ==> Lookup(st'.links, t) == Lookup(st.links, t))
      && (dbFails ==> st'.links == st.links)
      && (t != s || !applied ==>
            (t in st'.cache <==> t in st.cache) && (t in st'.cache ==> st'.cache[t] == st.cache[t]))
      && (applied ==> s !in st'.cache)
  {
    if Unpadded(t) != Unpadded(s) {
      OtherSlugsStay(st.links, s, t);
    }
  }

  /** The cache and the table the handlers work on; requests come one after the other. */
  class LinkHandler {
    const slugOf: SlugOf
    var links: Links
    var cache: map<string, Cached>
    var nextId: nat
    var answers: seq<Answer>
    var now: int

    ghost function View(): State
      reads this
    {
      State(links, cache, map[], answers, now)
    }

    ghost predicate Valid()
      reads this
    {
      Inv(View()) && SlugsCanonical(slugOf) && forall id :: id in links ==> id < nextId
    }

    /** Nothing stale is cached. */
    ghost predicate NothingStale()
      reads this
    {
      Clean(View())
    }

    constructor (slugOf: SlugOf, start: int)
      requires SlugsCanonical(slugOf)
      ensures Valid() && View() == Opened(start) && NothingStale()
    {
      this.slugOf := slugOf;
      links, cache, nextId, answers, now := map[], map[], 0, [], start;
    }

    method GetLinkBySlug(slug: string) returns (found: Option<string>)
      requires OneOwner(links)
      ensures found == Lookup(links, slug)
    {
      LookupMeaning(links, slug);
      if id :| id in links && LiveOwner(links, id, slug) {
        found := Some(links[id].url);
      } else {
        found := None;
      }
    }

    method CreateLink(url: string, tx: Reply, setApplied: bool) returns (created: Option<nat>)
      requires Valid()
      modifies this
      ensures Valid() && (old(NothingStale()) ==> NothingStale())
      ensures var stored := Stores(slugOf, old(View()), old(nextId), tx);
        && View() == AfterCreation(old(View()), old(nextId), slugOf(old(nextId)), url, stored, tx.Fine? && setApplied)
        && created == if stored && tx.Fine? then Some(old(nextId)) else None
      ensures created.Some? ==> Lookup(links, slugOf(created.value)) == Some(url)
      ensures var slug := slugOf(old(nextId));
        created == if tx.Fine? && |Unpadded(slug)| <= 11 && !Taken(old(links), slug) then Some(old(nextId)) else None
      ensures forall id :: id in old(links) ==> id in links && links[id] == old(links)[id]
    {
      var id, slug := nextId, slugOf(nextId);
      var stored := !tx.Refused? && Accepts(links, slug);
      ghost var before := View();
      ghost var after := AfterCreation(before, id, slug, url, stored, tx.Fine? && setApplied);
      nextId := nextId + 1;
      created := None;
      if stored {
        links := links[id := Link(slug, url, false)];
        if tx.Fine? {
          if setApplied {
            cache := cache[slug := Cached(url, now + LINK_TTL)];
          }
          created := Some(id);
        }
      }
      assert View() == after by {
        assert links == after.links;
        assert cache == after.cache;
      }
      StoresMeaning(slugOf, before, id, tx);
      CreationKeeps(slugOf, before, id, url, tx, setApplied);
      if stored {
        CreatedIsFound(links, id, slug, url);
      }
    }

    /** The cached url, or what the database finds. */
    method Target(slug: string, hit: bool, dbFails: bool) returns (target: Option<string>)
      requires OneOwner(links) && (hit ==> slug in cache)
      ensures target == if hit then Some(cache[slug].url) else if dbFails then None else Lookup(links, slug)
    {
      if hit {
        return Some(cache[slug].url);
      }
      if dbFails {
        return None;
      }
      target := GetLinkBySlug(slug);
    }

    method GetLink(slug: string, readFails: bool, dbFails: bool, setApplied: bool) returns (target: Option<string>)
      requires Valid()
      modifies this
      ensures Valid() && (old(NothingStale()) && Canonical(slug) ==> NothingStale())
      ensures var found := if dbFails then None else Lookup(old(links), slug);
        && View() == AfterRedirection(old(View()), slug, readFails, found, setApplied)
        && target == Answered(old(View()), slug, readFails, found)
      ensures old(NothingStale()) && !dbFails ==> target == Lookup(links, slug)
      ensures target.Some? ==> Right(links, slug, target.value)
    {
      ghost var found := if dbFails then None else Lookup(links, slug);
      ghost var before := View();
      ghost var after := AfterRedirection(before, slug, readFails, found, setApplied);
      var hit := !readFails && slug in cache && now < cache[slug].until;
      target := Target(slug, hit, dbFails);
      if !hit && target.Some? && setApplied {
        cache := cache[slug := Cached(target.value, now + LINK_TTL)];
      }
      assert cache == after.cache;
      answers := answers + [Answer(slug, target, now)];
      assert View() == after by {
        assert answers == after.answers;
      }
      RedirectionKeeps(slugOf, before, slug, readFails, dbFails, setApplied);
    }

    method DeleteLink(slug: string, applied: bool, dbFails: bool) returns (deleted: bool)
      requires Valid()
      modifies this
      ensures Valid() && (old(NothingStale()) && Canonical(slug) && applied ==> NothingStale())
      ensures View() == AfterRemoval(old(View()), slug, applied, dbFails)
      ensures deleted <==> !dbFails && IsLive(old(links), slug)
      ensures !dbFails ==> Lookup(links, slug) == None && (applied ==> GetAnswer(View(), slug) == None)
    {
      RemovalKeeps(slugOf, View(), slug, applied, dbFails);
      RemovedIsGone(View(), slug, applied);
      if applied {
        cache := cache - {slug};
      }
      deleted := !dbFails && exists id :: id in links && LiveOwner(links, id, slug);
      if !dbFails {
        links := SoftDeleted(links, slug);
      }
    }
  }
}
