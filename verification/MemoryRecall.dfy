/**
 Recall: what the vector store is asked, in which order its answers are used, and how they are
 paged. A point is only ever a candidate; the record is read back under the caller's own rights.
 */
module MemoryRecall {
  import opened Wrappers
  import opened MemoryStore
  import opened MemoryPoints
  import opened MemoryResults

  /** A scored answer. Ids order as the text of a UUID does. */
  datatype Hit = Hit(score: real, id: Id)

  const RECALL_PAGE := 10
  const RECALL_CEILING := 30

  // ---------------------------------------------------------------------------------------------
  // Ranking: best score first, then by id
  // ---------------------------------------------------------------------------------------------

  predicate Before(a: Hit, b: Hit) {
    a.score > b.score || (a.score == b.score && a.id < b.id)
  }

  predicate Ranked(hits: seq<Hit>) {
    forall i, j :: 0 <= i < j < |hits| ==> Before(hits[i], hits[j])
  }

  predicate NoRepeats(hits: seq<Hit>) {
    forall i, j :: 0 <= i < j < |hits| ==> hits[i].id != hits[j].id
  }

  function Place(h: Hit, hits: seq<Hit>): seq<Hit> {
    if |hits| == 0 || Before(h, hits[0]) then [h] + hits else [hits[0]] + Place(h, hits[1..])
  }

  function Rank(hits: seq<Hit>): seq<Hit> {
    if |hits| == 0 then [] else Place(hits[0], Rank(hits[1..]))
  }

  lemma {:induction false} PlaceElements(h: Hit, hits: seq<Hit>, x: Hit)
    ensures x in Place(h, hits) <==> x == h || x in hits
  {
    if |hits| != 0 && !Before(h, hits[0]) {
      PlaceElements(h, hits[1..], x);
      assert hits == [hits[0]] + hits[1..];
    }
  }

  lemma {:induction false} PlaceRanked(h: Hit, hits: seq<Hit>)
    requires Ranked(hits) && forall x :: x in hits ==> x.id != h.id
    ensures Ranked(Place(h, hits))
  {
    if |hits| != 0 && !Before(h, hits[0]) {
      PlaceRanked(h, hits[1..]);
      var rest := Place(h, hits[1..]);
      assert hits[0] in hits;
      forall j | 0 <= j < |rest| ensures Before(hits[0], rest[j]) {
        PlaceElements(h, hits[1..], rest[j]);
      }
    }
  }

  /** Ranking keeps the answers and puts them in order. */
  lemma {:induction false} RankSorts(hits: seq<Hit>)
    requires NoRepeats(hits)
    ensures Ranked(Rank(hits)) && forall x :: x in Rank(hits) <==> x in hits
  {
    if |hits| != 0 {
      RankSorts(hits[1..]);
      assert hits == [hits[0]] + hits[1..];
      PlaceRanked(hits[0], Rank(hits[1..]));
      forall x ensures x in Rank(hits) <==> x in hits {
        PlaceElements(hits[0], Rank(hits[1..]), x);
      }
    }
  }

  lemma NoElements(a: seq<Hit>)
    ensures a == [] <==> forall x :: x !in a
  {
    if a != [] {
      assert a[0] in a;
    }
  }

  /** There is only one ranked sequence of the same answers. */
  lemma {:induction false} RankedUnique(a: seq<Hit>, b: seq<Hit>)
    requires Ranked(a) && Ranked(b) && forall x :: x in a <==> x in b
    ensures a == b
  {
    NoElements(a);
    NoElements(b);
    if |a| != 0 {
      assert a[0] in b;
      assert b[0] in a;
      assert a[0] == b[0];
      forall x ensures x in a[1..] <==> x in b[1..] {
        TailElements(a, x);
        TailElements(b, x);
      }
      RankedUnique(a[1..], b[1..]);
      assert a == [a[0]] + a[1..] && b == [b[0]] + b[1..];
    }
  }

  lemma TailElements(a: seq<Hit>, x: Hit)
    requires Ranked(a) && |a| > 0
    ensures x in a[1..] <==> x in a && x != a[0]
  {
    assert a == [a[0]] + a[1..];
    if x in a[1..] {
      var i :| 0 <= i < |a[1..]| && a[1..][i] == x;
      assert Before(a[0], a[i + 1]);
    }
  }

  // ---------------------------------------------------------------------------------------------
  // Search in either layout
  // ---------------------------------------------------------------------------------------------

  datatype Layout = PerTenant | SharedLayout

  /** The filter the service adds: the owner, the status, and in the shared layout the organisation. */
  predicate Matches(s: Store, c: Collection, org: Org, owner: Sub, layout: Layout, id: Id) {
    At(s, c, id).Some?
    && var p := At(s, c, id).value;
       p.owner == owner && p.status == Confirmed && (layout == SharedLayout ==> p.org == Some(org))
  }

  /** What a search may answer when the limit is not reached: every match, once, with its score. */
  ghost predicate FullAnswer(s: Store, c: Collection, org: Org, owner: Sub, layout: Layout, score: string -> real,
                             hits: seq<Hit>)
  {
    && NoRepeats(hits)
    && (forall h :: h in hits ==> Matches(s, c, org, owner, layout, h.id) && h.score == score(At(s, c, h.id).value.content))
    && (forall id :: Matches(s, c, org, owner, layout, id) ==> Hit(score(At(s, c, id).value.content), id) in hits)
  }

  ghost predicate NothingPending(s: Store, org: Org) {
    forall id, op :: id in s.records && s.records[id].org == org ==> Todo(id, op) !in s.pending
  }

  lemma SameMatch(cfg: Config, s: Store, org: Org, owner: Sub, all: bool, id: Id)
    requires Core(cfg, s) && LayoutsAgree(cfg, s, all) && TenantsOk(cfg) && org in cfg.tenants
    requires NothingPending(s, org) && (all || Live(s, id))
    ensures SameIn(cfg, s, org, owner, id)
  {
    var c := TenantCollection(cfg.tenants[org]);
    assert PointOk(cfg, s, c, id) && PointOk(cfg, s, SHARED, id) && Agrees(cfg, s, all, id) && Labelled(s, id);
    TenantCollectionInjective(cfg.tenants[org], "shared");
    if id in s.records {
      TenantCollectionInjective(cfg.tenants[org], SlugText(cfg, s.records[id].org));
      assert s.records[id].org == org ==> Todo(id, Upsert) !in s.pending && Todo(id, Delete) !in s.pending;
    }
  }

  /** A record is a candidate in both layouts or in neither. */
  predicate SameIn(cfg: Config, s: Store, org: Org, owner: Sub, id: Id)
    requires org in cfg.tenants
  {
    Matches(s, TenantCollection(cfg.tenants[org]), org, owner, PerTenant, id) <==> Matches(s, SHARED, org, owner, SharedLayout, id)
  }

  lemma SameContent(cfg: Config, s: Store, org: Org, id: Id)
    requires Core(cfg, s) && org in cfg.tenants
    ensures var c := TenantCollection(cfg.tenants[org]);
      At(s, c, id).Some? && At(s, SHARED, id).Some? ==> At(s, c, id).value.content == At(s, SHARED, id).value.content
  {
    assert PointOk(cfg, s, TenantCollection(cfg.tenants[org]), id) && PointOk(cfg, s, SHARED, id);
  }

  lemma SameRanking(cfg: Config, s: Store, org: Org, owner: Sub, score: string -> real, a: seq<Hit>, b: seq<Hit>)
    requires Core(cfg, s) && org in cfg.tenants
    requires FullAnswer(s, TenantCollection(cfg.tenants[org]), org, owner, PerTenant, score, a)
    requires FullAnswer(s, SHARED, org, owner, SharedLayout, score, b)
    ensures Rank(a) == Rank(b) <==> forall id :: SameIn(cfg, s, org, owner, id)
  {
    RankSorts(a);
    RankSorts(b);
    var c := TenantCollection(cfg.tenants[org]);
    if forall id :: SameIn(cfg, s, org, owner, id) {
      forall x ensures x in a <==> x in b {
        assert SameIn(cfg, s, org, owner, x.id);
        SameContent(cfg, s, org, x.id);
      }
      RankedUnique(Rank(a), Rank(b));
    } else {
      var id :| !SameIn(cfg, s, org, owner, id);
      if Matches(s, c, org, owner, PerTenant, id) {
        var h := Hit(score(At(s, c, id).value.content), id);
        assert h in Rank(a) && h !in Rank(b);
      } else {
        var h := Hit(score(At(s, SHARED, id).value.content), id);
        assert h in Rank(b) && h !in Rank(a);
      }
    }
  }

  lemma {:induction false} AfterConcat(cfg: Config, s: Store, a: seq<Event>, b: seq<Event>)
    ensures After(cfg, s, a + b) == After(cfg, After(cfg, s, a), b)
    decreases |a|
  {
    if |a| == 0 {
      assert a + b == b;
    } else {
      assert (a + b)[1..] == a[1..] + b;
      AfterConcat(cfg, Next(cfg, s, a[0]), a[1..], b);
    }
  }

  lemma RunBeforeInit(cfg: Config, seeds: map<Id, Record>, events: seq<Event>)
    requires SeedsOk(cfg, seeds) && TenantsOk(cfg)
    ensures Core(cfg, After(cfg, Start(cfg, seeds), events)) && LayoutsAgree(cfg, After(cfg, Start(cfg, seeds), events), false)
  {
    StartOk(cfg, seeds);
    assert LayoutsAgree(cfg, Start(cfg, seeds), false);
    RunKeeps(cfg, Start(cfg, seeds), events);
  }

  lemma AfterStep(cfg: Config, s: Store, events: seq<Event>, k: nat)
    requires k < |events|
    ensures After(cfg, s, events[..k + 1]) == Next(cfg, After(cfg, s, events[..k]), events[k])
  {
    AfterConcat(cfg, s, events[..k], [events[k]]);
    assert events[..k] + [events[k]] == events[..k + 1];
    var t := After(cfg, s, events[..k]);
    assert After(cfg, Next(cfg, t, events[k]), []) == Next(cfg, t, events[k]);
  }

  lemma AfterRest(cfg: Config, s: Store, events: seq<Event>, k: nat)
    requires k <= |events|
    ensures After(cfg, s, events) == After(cfg, After(cfg, s, events[..k]), events[k..])
  {
    AfterConcat(cfg, s, events[..k], events[k..]);
    assert events[..k] + events[k..] == events;
  }

  /**
   If step `k` forgot the record and left it a candidate, both collections were swept since then, or
   neither was.
   */
  ghost predicate SweptAlike(cfg: Config, s: Store, events: seq<Event>, org: Org, owner: Sub, k: nat, id: Id)
    requires org in cfg.tenants && k < |events|
  {
    var t, rest := After(cfg, s, events[..k + 1]), events[k + 1..];
    Forgets(cfg, After(cfg, s, events[..k]), events[k], id) && Matches(t, SHARED, org, owner, SharedLayout, id) ==>
      (EverSwept(cfg, t, rest, TenantCollection(cfg.tenants[org])) <==> EverSwept(cfg, t, rest, SHARED))
  }

  ghost predicate AlwaysSweptAlike(cfg: Config, s: Store, events: seq<Event>, org: Org, owner: Sub)
    requires org in cfg.tenants
  {
    forall k: nat, id | k < |events| :: SweptAlike(cfg, s, events, org, owner, k, id)
  }

  /** What a forgotten record shows in both layouts, from the moment it was forgotten on. */
  lemma ForgottenSameIn(cfg: Config, s: Store, t: Store, rest: seq<Event>, org: Org, owner: Sub, id: Id)
    requires Core(cfg, t) && LayoutsAgree(cfg, t, false) && TenantsOk(cfg) && org in cfg.tenants && Forgotten(t, id)
    requires s == After(cfg, t, rest) && Core(cfg, s) && NothingPending(s, org)
    requires t.records[id].org == org ==> SamePoint(At(t, TenantCollection(cfg.tenants[org]), id), At(t, SHARED, id))
    ensures var c := TenantCollection(cfg.tenants[org]);
      SameIn(cfg, s, org, owner, id)
      <==> (Matches(t, SHARED, org, owner, SharedLayout, id) ==> (EverSwept(cfg, t, rest, c) <==> EverSwept(cfg, t, rest, SHARED)))
  {
    var c := TenantCollection(cfg.tenants[org]);
    ForgottenPointStays(cfg, t, rest, c, id);
    ForgottenPointStays(cfg, t, rest, SHARED, id);
    TenantCollectionInjective(cfg.tenants[org], "shared");
    TenantCollectionInjective(cfg.tenants[org], SlugText(cfg, t.records[id].org));
    assert PointOk(cfg, t, c, id) && Agrees(cfg, t, false, id) && Labelled(t, id);
  }

  lemma ForgottenAtStep(cfg: Config, seeds: map<Id, Record>, events: seq<Event>, org: Org, owner: Sub, k: nat, id: Id)
    requires SeedsOk(cfg, seeds) && TenantsOk(cfg) && org in cfg.tenants && k < |events|
    requires NothingPending(After(cfg, Start(cfg, seeds), events), org)
    requires Forgets(cfg, After(cfg, Start(cfg, seeds), events[..k]), events[k], id)
    ensures SameIn(cfg, After(cfg, Start(cfg, seeds), events), org, owner, id)
            <==> SweptAlike(cfg, Start(cfg, seeds), events, org, owner, k, id)
  {
    var s0, rest := Start(cfg, seeds), events[k + 1..];
    var b, t, s := After(cfg, s0, events[..k]), After(cfg, s0, events[..k + 1]), After(cfg, s0, events);
    AfterStep(cfg, s0, events, k);
    AfterRest(cfg, s0, events, k + 1);
    RunBeforeInit(cfg, seeds, events[..k]);
    RunBeforeInit(cfg, seeds, events[..k + 1]);
    RunBeforeInit(cfg, seeds, events);
    ForgetEvents(cfg, b, events[k], id);
    if t.records[id].org == org {
      ForgottenPointStays(cfg, t, rest, SHARED, id);
      forall op ensures Todo(id, op) !in t.pending {
        assert op == Upsert || op == Delete;
        assert Todo(id, op) !in s.pending;
      }
      ForgottenAlike(cfg, b, events[k], id);
    }
    ForgottenSameIn(cfg, s, t, rest, org, owner, id);
  }

  lemma ForgottenAlikeOrNot(cfg: Config, seeds: map<Id, Record>, events: seq<Event>, org: Org, owner: Sub, k: nat, id: Id)
    requires SeedsOk(cfg, seeds) && TenantsOk(cfg) && org in cfg.tenants && k < |events|
    requires NothingPending(After(cfg, Start(cfg, seeds), events), org)
    requires SameIn(cfg, After(cfg, Start(cfg, seeds), events), org, owner, id)
    ensures SweptAlike(cfg, Start(cfg, seeds), events, org, owner, k, id)
  {
    if Forgets(cfg, After(cfg, Start(cfg, seeds), events[..k]), events[k], id) {
      ForgottenAtStep(cfg, seeds, events, org, owner, k, id);
    }
  }

  /** A record that is not alike in both layouts was forgotten at a step after which only one was swept. */
  lemma ForgottenApart(cfg: Config, seeds: map<Id, Record>, events: seq<Event>, org: Org, owner: Sub, id: Id) returns (k: nat)
    requires SeedsOk(cfg, seeds) && TenantsOk(cfg) && org in cfg.tenants
    requires NothingPending(After(cfg, Start(cfg, seeds), events), org)
    requires !SameIn(cfg, After(cfg, Start(cfg, seeds), events), org, owner, id)
    ensures k < |events| && !SweptAlike(cfg, Start(cfg, seeds), events, org, owner, k, id)
  {
    var s := After(cfg, Start(cfg, seeds), events);
    RunBeforeInit(cfg, seeds, events);
    assert PointOk(cfg, s, TenantCollection(cfg.tenants[org]), id) && PointOk(cfg, s, SHARED, id);
    if Live(s, id) {
      SameMatch(cfg, s, org, owner, false, id);
    }
    StartIsLive(cfg, seeds, id);
    k := ForgottenSometime(cfg, Start(cfg, seeds), events, id);
    ForgottenAtStep(cfg, seeds, events, org, owner, k, id);
  }

  lemma StartIsLive(cfg: Config, seeds: map<Id, Record>, id: Id)
    requires SeedsOk(cfg, seeds)
    ensures !Forgotten(Start(cfg, seeds), id)
  {
    var s := Store(seeds, {}, map[], true, false);
    forall x ensures ParentLive(s, x) {
    }
    NothingToComplete(s);
  }

  lemma SameInExactly(cfg: Config, seeds: map<Id, Record>, events: seq<Event>, org: Org, owner: Sub)
    requires SeedsOk(cfg, seeds) && TenantsOk(cfg) && org in cfg.tenants
    requires NothingPending(After(cfg, Start(cfg, seeds), events), org)
    ensures (forall id :: SameIn(cfg, After(cfg, Start(cfg, seeds), events), org, owner, id))
            <==> AlwaysSweptAlike(cfg, Start(cfg, seeds), events, org, owner)
  {
    if id :| !SameIn(cfg, After(cfg, Start(cfg, seeds), events), org, owner, id) {
      var k := ForgottenApart(cfg, seeds, events, org, owner, id);
    } else {
      forall k: nat, id | k < |events| ensures SweptAlike(cfg, Start(cfg, seeds), events, org, owner, k, id) {
        ForgottenAlikeOrNot(cfg, seeds, events, org, owner, k, id);
      }
    }
  }

  /**
   After any run at all, with nothing pending for the organisation, both layouts rank the same
   candidates exactly when, of every candidate forgotten on the way, both collections were swept since
   or neither was.
   */
  lemma LayoutsDifferExactly(cfg: Config, seeds: map<Id, Record>, events: seq<Event>, org: Org, owner: Sub,
                             score: string -> real, a: seq<Hit>, b: seq<Hit>)
    requires SeedsOk(cfg, seeds) && TenantsOk(cfg) && org in cfg.tenants
    requires var s := After(cfg, Start(cfg, seeds), events);
      && NothingPending(s, org)
      && FullAnswer(s, TenantCollection(cfg.tenants[org]), org, owner, PerTenant, score, a)
      && FullAnswer(s, SHARED, org, owner, SharedLayout, score, b)
    ensures Rank(a) == Rank(b) <==> AlwaysSweptAlike(cfg, Start(cfg, seeds), events, org, owner)
  {
    RunBeforeInit(cfg, seeds, events);
    SameRanking(cfg, After(cfg, Start(cfg, seeds), events), org, owner, score, a, b);
    SameInExactly(cfg, seeds, events, org, owner);
  }

  predicate Quiet(events: seq<Event>) {
    forall i :: 0 <= i < |events| ==> !events[i].InitSweep?
  }

  /** A complete memory-init under the scope "all", with no interrupted sweep after it. */
  ghost predicate HealedBy(cfg: Config, s: Store, events: seq<Event>, head: seq<Event>, tail: seq<Event>) {
    events == head + [FullInit] + tail && After(cfg, s, head).scopeAll && Quiet(tail)
  }

  /** No sweep was interrupted, or a complete memory-init came after the last one that was. */
  ghost predicate Healed(cfg: Config, s: Store, events: seq<Event>) {
    Quiet(events) || exists head, tail :: HealedBy(cfg, s, events, head, tail)
  }

  lemma QuietRunAgrees(cfg: Config, s: Store, events: seq<Event>)
    requires Core(cfg, s) && LayoutsAgree(cfg, s, true) && TenantsOk(cfg)
    requires Quiet(events)
    ensures Core(cfg, After(cfg, s, events)) && LayoutsAgree(cfg, After(cfg, s, events), true)
  {
    RunKeeps(cfg, s, events);
  }

  lemma FullInitStep(cfg: Config, s: Store)
    ensures After(cfg, s, [FullInit]) == Init(cfg, s)
  {
    assert After(cfg, Next(cfg, s, FullInit), []) == Next(cfg, s, FullInit);
  }

  lemma InitStepHeals(cfg: Config, s: Store)
    requires Core(cfg, s) && LayoutsAgree(cfg, s, false) && TenantsOk(cfg) && s.scopeAll
    ensures var t := After(cfg, s, [FullInit]); Core(cfg, t) && LayoutsAgree(cfg, t, true)
  {
    FullInitStep(cfg, s);
    var t := Init(cfg, s);
    assert Core(cfg, t) && LayoutsAgree(cfg, t, true) by {
      InitHeals(cfg, s);
      InitKeeps(cfg, s);
    }
  }

  lemma CompleteInitHeals(cfg: Config, seeds: map<Id, Record>, events: seq<Event>)
    requires SeedsOk(cfg, seeds) && TenantsOk(cfg) && After(cfg, Start(cfg, seeds), events).scopeAll
    ensures var s := After(cfg, Start(cfg, seeds), events + [FullInit]); Core(cfg, s) && LayoutsAgree(cfg, s, true)
  {
    RunBeforeInit(cfg, seeds, events);
    InitStepHeals(cfg, After(cfg, Start(cfg, seeds), events));
    AfterConcat(cfg, Start(cfg, seeds), events, [FullInit]);
  }

  lemma HealedRun(cfg: Config, seeds: map<Id, Record>, head: seq<Event>, tail: seq<Event>)
    requires SeedsOk(cfg, seeds) && TenantsOk(cfg) && After(cfg, Start(cfg, seeds), head).scopeAll
    requires Quiet(tail)
    ensures var s := After(cfg, Start(cfg, seeds), head + [FullInit] + tail); Core(cfg, s) && LayoutsAgree(cfg, s, true)
  {
    CompleteInitHeals(cfg, seeds, head);
    QuietRunAgrees(cfg, After(cfg, Start(cfg, seeds), head + [FullInit]), tail);
    AfterConcat(cfg, Start(cfg, seeds), head + [FullInit], tail);
  }

  lemma HealedAgree(cfg: Config, seeds: map<Id, Record>, events: seq<Event>)
    requires SeedsOk(cfg, seeds) && TenantsOk(cfg) && Healed(cfg, Start(cfg, seeds), events)
    ensures var s := After(cfg, Start(cfg, seeds), events); Core(cfg, s) && LayoutsAgree(cfg, s, true)
  {
    if Quiet(events) {
      StartOk(cfg, seeds);
      assert LayoutsAgree(cfg, Start(cfg, seeds), true);
      QuietRunAgrees(cfg, Start(cfg, seeds), events);
    } else {
      var head, tail :| HealedBy(cfg, Start(cfg, seeds), events, head, tail);
      HealedRun(cfg, seeds, head, tail);
    }
  }

  /**
   With nothing pending for the organisation, both layouts rank the same candidates, over every run
   in which no sweep was interrupted, or a complete memory-init came after the last that was.
   */
  lemma LayoutsReturnTheSame(cfg: Config, seeds: map<Id, Record>, events: seq<Event>, org: Org, owner: Sub,
                             score: string -> real, a: seq<Hit>, b: seq<Hit>)
    requires SeedsOk(cfg, seeds) && TenantsOk(cfg) && org in cfg.tenants
    requires Healed(cfg, Start(cfg, seeds), events)
    requires var s := After(cfg, Start(cfg, seeds), events);
      && NothingPending(s, org)
      && FullAnswer(s, TenantCollection(cfg.tenants[org]), org, owner, PerTenant, score, a)
      && FullAnswer(s, SHARED, org, owner, SharedLayout, score, b)
    ensures Rank(a) == Rank(b)
  {
    var s := After(cfg, Start(cfg, seeds), events);
    HealedAgree(cfg, seeds, events);
    forall id ensures SameIn(cfg, s, org, owner, id) {
      SameMatch(cfg, s, org, owner, true, id);
    }
    SameRanking(cfg, s, org, owner, score, a, b);
  }

  /** What a failed confirmation left behind is a candidate in no search of that collection again. */
  lemma ShadowedIsNeverFound(cfg: Config, s: Store, events: seq<Event>, c: Collection, id: Id, org: Org, owner: Sub,
                             layout: Layout)
    requires Shadowed(s, c, id)
    ensures !Matches(After(cfg, s, events), c, org, owner, layout, id)
    ensures Live(After(cfg, s, events), id) ==> After(cfg, s, events).records[id].status == Confirmed
  {
    ShadowedForever(cfg, s, events, c, id);
  }

  // ---------------------------------------------------------------------------------------------
  // What an owner's search finds
  // ---------------------------------------------------------------------------------------------

  /** The collection a layout searches for an organisation. */
  function Searched(cfg: Config, layout: Layout, org: Org): Collection
    requires org in cfg.tenants
  {
    if layout == SharedLayout then SHARED else TenantCollection(cfg.tenants[org])
  }

  /** In both layouts a record is a candidate for its owner. */
  predicate FoundByOwner(cfg: Config, s: Store, org: Org, owner: Sub, id: Id)
    requires org in cfg.tenants
  {
    forall layout :: Matches(s, Searched(cfg, layout, org), org, owner, layout, id)
  }

  /**
   After any run, whoever asks, a live confirmed record with nothing pending is a candidate exactly for
   its owner in its own organisation, in every collection where no failed confirmation left it behind.
   */
  lemma FoundExactly(cfg: Config, seeds: map<Id, Record>, events: seq<Event>, id: Id, layout: Layout, org: Org, owner: Sub)
    requires SeedsOk(cfg, seeds) && TenantsOk(cfg) && org in cfg.tenants
    requires var s := After(cfg, Start(cfg, seeds), events);
      && Live(s, id) && s.records[id].status == Confirmed && s.records[id].org in cfg.tenants
      && Todo(id, Upsert) !in s.pending
    ensures var s := After(cfg, Start(cfg, seeds), events);
      var c := Searched(cfg, layout, org);
      Matches(s, c, org, owner, layout, id)
      <==> org == s.records[id].org && owner == s.records[id].owner && !Shadowed(s, c, id)
  {
    var s, c := After(cfg, Start(cfg, seeds), events), Searched(cfg, layout, org);
    RunBeforeInit(cfg, seeds, events);
    TenantCollectionInjective(cfg.tenants[org], "shared");
    TenantCollectionInjective(cfg.tenants[org], SlugText(cfg, s.records[id].org));
    assert c in Collections(cfg);
    assert PointOk(cfg, s, c, id) && HasPoint(cfg, s, c, id) && Labelled(s, id);
  }

  lemma WrittenIsFoundExactly(cfg: Config, s: Store, id: Id, r: Record)
    requires r.org in cfg.tenants
    ensures FoundByOwner(cfg, Write(cfg, s, id, r, NoFault), r.org, r.owner, id) <==> r.status == Confirmed
  {
    forall layout {
      UpsertAt(cfg, Commit(s, id, r), id, r, NoFault, Searched(cfg, layout, r.org), id);
    }
    assert r.status == Confirmed
      || !Matches(Write(cfg, s, id, r, NoFault), Searched(cfg, SharedLayout, r.org), r.org, r.owner, SharedLayout, id);
  }

  /** A memory confirmed without a fault is found by its owner. */
  lemma ConfirmedIsFound(cfg: Config, s: Store, org: Org, owner: Sub, id: Id)
    requires org in cfg.tenants && Visible(s, org, owner, id) && s.records[id].status == Unconfirmed
    ensures FoundByOwner(cfg, Next(cfg, s, Confirm(org, owner, id, NoFault)), org, owner, id)
  {
    WrittenIsFoundExactly(cfg, s, id, s.records[id].(status := Confirmed, auto := false));
  }

  /** A memory remembered without a fault is found at once exactly while the deployment confirms by itself. */
  lemma RememberedIsFoundExactly(cfg: Config, s: Store, org: Org, owner: Sub, id: Id, content: string)
    requires org in cfg.tenants && id !in s.records
    ensures FoundByOwner(cfg, Next(cfg, s, Remember(org, owner, id, content, false, NoFault)), org, owner, id) <==> s.autoConfirm
  {
    WrittenIsFoundExactly(cfg, s, id, NewMemory(cfg, s, org, owner, content));
  }

  /** A summary is found exactly if what it sums up was confirmed: nothing unconfirmed gets in through it. */
  lemma SummaryIsFoundExactly(cfg: Config, s: Store, org: Org, owner: Sub, source: Id, id: Id)
    requires org in cfg.tenants && id !in s.records && Visible(s, org, owner, source)
    ensures FoundByOwner(cfg, Next(cfg, s, Summarise(org, owner, source, id, NoFault)), org, owner, id)
            <==> s.records[source].status == Confirmed
  {
    WrittenIsFoundExactly(cfg, s, id, NewSummary(cfg, s, org, owner, source));
  }

  /** A memory forgotten without a fault, and all that was derived from it, is found by nobody. */
  lemma ForgottenIsNotFound(cfg: Config, seeds: map<Id, Record>, events: seq<Event>, org: Org, owner: Sub, root: Id, id: Id,
                            layout: Layout, other: Org, asker: Sub)
    requires SeedsOk(cfg, seeds) && TenantsOk(cfg) && org in cfg.tenants && other in cfg.tenants
    requires SetScope(false) !in events
    requires var s := After(cfg, Start(cfg, seeds), events); Visible(s, org, owner, root) && id in LiveDescendants(s, root)
    ensures var t := After(cfg, Start(cfg, seeds), events + [Forget(org, owner, root, NoFault)]);
      !Matches(t, Searched(cfg, layout, other), other, asker, layout, id)
  {
    var s, e := After(cfg, Start(cfg, seeds), events), Forget(org, owner, root, NoFault);
    AfterConcat(cfg, Start(cfg, seeds), events, [e]);
    assert After(cfg, s, [e]) == After(cfg, Next(cfg, s, e), []);
    RunBeforeInit(cfg, seeds, events);
    ForgottenPointsGo(cfg, seeds, events, org, owner, root, id, Searched(cfg, layout, other));
  }

  lemma ForgottenPointsGo(cfg: Config, seeds: map<Id, Record>, events: seq<Event>, org: Org, owner: Sub, root: Id, id: Id,
                          c: Collection)
    requires SeedsOk(cfg, seeds) && TenantsOk(cfg) && org in cfg.tenants && SetScope(false) !in events
    requires var s := After(cfg, Start(cfg, seeds), events); Visible(s, org, owner, root) && id in LiveDescendants(s, root)
    ensures At(DoForget(cfg, After(cfg, Start(cfg, seeds), events), org, owner, root, NoFault), c, id).None?
  {
    var s := After(cfg, Start(cfg, seeds), events);
    RunBeforeInit(cfg, seeds, events);
    StartOk(cfg, seeds);
    RunKeeps(cfg, Start(cfg, seeds), events);
    ForgetIsComplete(cfg, seeds, events, org, owner, root, NoFault);
    var gone := Tree(s.records, VisibleIds(s, org, owner), root);
    ForgetReach(cfg, s, org, owner, root);
    assert id in gone;
    DeleteAt(cfg, Bury(s, gone), org, gone, NoFault, c, id);
    assert PointOk(cfg, s, c, id);
  }

  // ---------------------------------------------------------------------------------------------
  // Recall reads candidates back
  // ---------------------------------------------------------------------------------------------

  predicate Recallable(s: Store, org: Org, owner: Sub, id: Id) {
    Visible(s, org, owner, id) && s.records[id].status == Confirmed
  }

  function ReadBack(s: Store, org: Org, owner: Sub, hits: seq<Hit>): seq<Hit> {
    if |hits| == 0 then []
    else (if Recallable(s, org, owner, hits[0].id) then [hits[0]] else []) + ReadBack(s, org, owner, hits[1..])
  }

  lemma {:induction false} ReadBackElements(s: Store, org: Org, owner: Sub, hits: seq<Hit>, x: Hit)
    ensures x in ReadBack(s, org, owner, hits) <==> x in hits && Recallable(s, org, owner, x.id)
  {
    if |hits| != 0 {
      ReadBackElements(s, org, owner, hits[1..], x);
      assert hits == [hits[0]] + hits[1..];
    }
  }

  lemma {:induction false} ReadBackRanked(s: Store, org: Org, owner: Sub, hits: seq<Hit>)
    requires Ranked(hits)
    ensures Ranked(ReadBack(s, org, owner, hits))
  {
    if |hits| != 0 {
      ReadBackRanked(s, org, owner, hits[1..]);
      var rest := ReadBack(s, org, owner, hits[1..]);
      forall j | 0 <= j < |rest| ensures Before(hits[0], rest[j]) {
        ReadBackElements(s, org, owner, hits[1..], rest[j]);
      }
    }
  }

  lemma {:induction false} ReadBackConcat(s: Store, org: Org, owner: Sub, a: seq<Hit>, b: seq<Hit>)
    ensures ReadBack(s, org, owner, a + b) == ReadBack(s, org, owner, a) + ReadBack(s, org, owner, b)
  {
    if |a| == 0 {
      assert a + b == b;
    } else {
      assert (a + b)[1..] == a[1..] + b;
      ReadBackConcat(s, org, owner, a[1..], b);
    }
  }

  /** What recall gives back is the same in both layouts after any run at all, interrupted repairs included. */
  lemma RecallIgnoresLayout(cfg: Config, seeds: map<Id, Record>, events: seq<Event>, org: Org, owner: Sub,
                            score: string -> real, a: seq<Hit>, b: seq<Hit>)
    requires SeedsOk(cfg, seeds) && TenantsOk(cfg) && org in cfg.tenants
    requires var s := After(cfg, Start(cfg, seeds), events);
      && NothingPending(s, org)
      && FullAnswer(s, TenantCollection(cfg.tenants[org]), org, owner, PerTenant, score, a)
      && FullAnswer(s, SHARED, org, owner, SharedLayout, score, b)
    ensures var s := After(cfg, Start(cfg, seeds), events);
      ReadBack(s, org, owner, Rank(a)) == ReadBack(s, org, owner, Rank(b))
  {
    var s := After(cfg, Start(cfg, seeds), events);
    RunBeforeInit(cfg, seeds, events);
    RankSorts(a);
    RankSorts(b);
    ReadBackRanked(s, org, owner, Rank(a));
    ReadBackRanked(s, org, owner, Rank(b));
    forall x ensures x in ReadBack(s, org, owner, Rank(a)) <==> x in ReadBack(s, org, owner, Rank(b)) {
      ReadBackElements(s, org, owner, Rank(a), x);
      ReadBackElements(s, org, owner, Rank(b), x);
      if Live(s, x.id) {
        SameHit(cfg, s, org, owner, score, a, b, x);
      }
    }
    RankedUnique(ReadBack(s, org, owner, Rank(a)), ReadBack(s, org, owner, Rank(b)));
  }

  lemma SameHit(cfg: Config, s: Store, org: Org, owner: Sub, score: string -> real, a: seq<Hit>, b: seq<Hit>, x: Hit)
    requires Core(cfg, s) && LayoutsAgree(cfg, s, false) && TenantsOk(cfg) && org in cfg.tenants
    requires NothingPending(s, org) && Live(s, x.id)
    requires FullAnswer(s, TenantCollection(cfg.tenants[org]), org, owner, PerTenant, score, a)
    requires FullAnswer(s, SHARED, org, owner, SharedLayout, score, b)
    ensures x in a <==> x in b
  {
    SameMatch(cfg, s, org, owner, false, x.id);
    SameContent(cfg, s, org, x.id);
  }

  /** A memory is forgotten while forgetting is armed; the repair that follows stops after one collection. */
  function InterruptedRepair(cfg: Config, org: Org, owner: Sub): seq<Event>
    requires org in cfg.tenants
  {
    [SetScope(false), Forget(org, owner, 0, NoFault)] + [SetScope(true), InitSweep(TenantCollection(cfg.tenants[org]))]
  }

  /**
   An interrupted sweep is why the candidates can differ: from the first memory-init, this run ends
   with nothing pending and the forgotten memory a candidate in one layout only.
   */
  lemma InterruptedSweepSplitsLayouts(cfg: Config, r: Record)
    requires TenantsOk(cfg) && r.org in cfg.tenants && r.status == Confirmed && SeedsOk(cfg, map[0 := r])
    ensures var s := After(cfg, Start(cfg, map[0 := r]), InterruptedRepair(cfg, r.org, r.owner));
      && s.pending == {} && s.scopeAll && !Live(s, 0)
      && !SameIn(cfg, s, r.org, r.owner, 0)
  {
    var s, c := Start(cfg, map[0 := r]), TenantCollection(cfg.tenants[r.org]);
    SeededStart(cfg, r);
    ArmedForget(cfg, s, r.org, r.owner);
    var b := Hide(s, {0}).(scopeAll := false);
    SweepOne(cfg, b, c, r.org);
    AfterConcat(cfg, s, [SetScope(false), Forget(r.org, r.owner, 0, NoFault)], [SetScope(true), InitSweep(c)]);
    var t := After(cfg, s, InterruptedRepair(cfg, r.org, r.owner));
    assert t.records == MarkDeleted(s.records, {0});
  }

  lemma ArmedForget(cfg: Config, s: Store, org: Org, owner: Sub)
    requires Visible(s, org, owner, 0)
    ensures After(cfg, s, [SetScope(false), Forget(org, owner, 0, NoFault)]) == Hide(s, {0}).(scopeAll := false)
  {
    var a := s.(scopeAll := false);
    assert Next(cfg, s, SetScope(false)) == a;
    assert Next(cfg, a, Forget(org, owner, 0, NoFault)) == Hide(a, {0});
    TwoSteps(cfg, s, SetScope(false), Forget(org, owner, 0, NoFault));
  }

  lemma SweepOne(cfg: Config, s: Store, c: Collection, org: Org)
    requires org in cfg.tenants && cfg.tenants[org] != "shared" && c == TenantCollection(cfg.tenants[org])
    ensures var t := After(cfg, s, [SetScope(true), InitSweep(c)]);
      && t.pending == s.pending && t.records == s.records && t.scopeAll
      && (forall id :: !Live(s, id) ==> At(t, c, id).None? && At(t, SHARED, id) == At(s, SHARED, id))
  {
    TenantCollectionInjective(cfg.tenants[org], "shared");
    var d := s.(scopeAll := true);
    assert Next(cfg, s, SetScope(true)) == d;
    assert c in Collections(cfg);
    assert Next(cfg, d, InitSweep(c)) == d.(points := d.points[c := Swept(d, c)]);
    TwoSteps(cfg, s, SetScope(true), InitSweep(c));
  }

  lemma SeededStart(cfg: Config, r: Record)
    requires TenantsOk(cfg) && r.org in cfg.tenants && SeedsOk(cfg, map[0 := r])
    ensures var s := Start(cfg, map[0 := r]);
      && s.records == map[0 := r] && s.pending == {} && s.scopeAll
      && At(s, SHARED, 0) == Some(PointOf(r, SHARED, r.hash))
  {
    var s := Store(map[0 := r], {}, map[], true, false);
    forall x ensures ParentLive(s, x) {
    }
    NothingToComplete(s);
    SetupAt(cfg, s, SHARED, 0);
  }

  // ---------------------------------------------------------------------------------------------
  // Paging
  // ---------------------------------------------------------------------------------------------

  datatype Page = Page(results: seq<Hit>, next: Option<nat>)

  function Min(a: nat, b: nat): nat {
    if a < b then a else b
  }

  /** What the search gives back under its limit. */
  function Top(ranked: seq<Hit>): seq<Hit> {
    ranked[..Min(|ranked|, RECALL_CEILING)]
  }

  /** One answer of recall, from the ranked matches, for any cursor a caller sends. */
  function Recall(s: Store, org: Org, owner: Sub, ranked: seq<Hit>, offset: nat): Page {
    if offset >= RECALL_CEILING then Page([], None)
    else
      var candidates := Top(ranked);
      var from := Min(offset, |candidates|);
      var to := Min(offset + RECALL_PAGE, |candidates|);
      Page(ReadBack(s, org, owner, candidates[from..to]),
           if offset + RECALL_PAGE < Min(|candidates|, RECALL_CEILING) then Some(offset + RECALL_PAGE) else None)
  }

  /** Every page reached by following the cursor from an offset. */
  function FollowCursor(s: Store, org: Org, owner: Sub, ranked: seq<Hit>, offset: nat): (pages: seq<Page>)
    decreases RECALL_CEILING - offset
  {
    var page := Recall(s, org, owner, ranked, offset);
    match page.next
    case None => [page]
    case Some(next) => [page] + FollowCursor(s, org, owner, ranked, next)
  }

  function Results(pages: seq<Page>): seq<Hit> {
    if |pages| == 0 then [] else pages[0].results + Results(pages[1..])
  }

  /** How many pages are left from an offset on. */
  function PagesLeft(offset: nat): nat {
    if offset < RECALL_CEILING then (RECALL_CEILING - offset + RECALL_PAGE - 1) / RECALL_PAGE else 1
  }

  /** From whatever offset it starts, following the cursor reads the rest of the candidates back. */
  lemma {:induction false} CursorCovers(s: Store, org: Org, owner: Sub, ranked: seq<Hit>, offset: nat)
    ensures var pages, top := FollowCursor(s, org, owner, ranked, offset), Top(ranked);
      && Results(pages) == ReadBack(s, org, owner, top[Min(offset, |top|)..])
      && |pages| <= PagesLeft(offset)
    decreases RECALL_CEILING - offset
  {
    var page := Recall(s, org, owner, ranked, offset);
    var pages := FollowCursor(s, org, owner, ranked, offset);
    var top := Top(ranked);
    if page.next.Some? {
      var next := offset + RECALL_PAGE;
      CursorCovers(s, org, owner, ranked, next);
      assert pages[1..] == FollowCursor(s, org, owner, ranked, next);
      assert page.results == ReadBack(s, org, owner, top[offset..next]);
      assert top[offset..] == top[offset..next] + top[next..];
      ReadBackConcat(s, org, owner, top[offset..next], top[next..]);
    } else {
      assert pages[1..] == [];
      var from, to := Min(offset, |top|), Min(offset + RECALL_PAGE, |top|);
      assert to == |top| && top[from..to] == top[from..];
      assert page.results == ReadBack(s, org, owner, top[from..]);
    }
  }

  /** Ranked answers, all of them from an answer without a repeated id, repeat no id. */
  lemma RankedNoRepeats(ranked: seq<Hit>, answer: seq<Hit>)
    requires Ranked(ranked) && NoRepeats(answer) && forall h :: h in ranked ==> h in answer
    ensures NoRepeats(ranked)
  {
    forall i, j | 0 <= i < j < |ranked| ensures ranked[i].id != ranked[j].id {
      assert Before(ranked[i], ranked[j]) && ranked[i] in ranked && ranked[j] in ranked;
      var k :| 0 <= k < |answer| && answer[k] == ranked[i];
      var l :| 0 <= l < |answer| && answer[l] == ranked[j];
    }
  }

  /**
   Following the cursor over one ranked answer of the store reads the first thirty candidates back, no
   record twice, in rank order, in three pages at most of ten each: those that are confirmed, not
   forgotten, and the caller's own.
   */
  lemma RecallPagesAreExact(s: Store, org: Org, owner: Sub, answer: seq<Hit>)
    requires NoRepeats(answer)
    ensures var ranked := Rank(answer);
      var pages := FollowCursor(s, org, owner, ranked, 0);
      && |pages| <= 3
      && Ranked(Results(pages)) && NoRepeats(Results(pages))
      && (forall h :: h in Results(pages)
                      <==> h in ranked[..Min(|ranked|, 30)] && h.id in s.records && Returnable(s.records[h.id], org, owner))
      && (forall i :: 0 <= i < |pages| ==> |pages[i].results| <= 10)
  {
    var candidates := Rank(answer);
    RankSorts(answer);
    CursorCovers(s, org, owner, candidates, 0);
    var top := Top(candidates);
    assert top[0..] == top;
    ReadBackRanked(s, org, owner, top);
    var results := Results(FollowCursor(s, org, owner, candidates, 0));
    forall h ensures h in results <==> h in top && Recallable(s, org, owner, h.id) {
      ReadBackElements(s, org, owner, top, h);
    }
    forall h | h in results ensures h in answer {
      assert h in top;
    }
    RankedNoRepeats(results, answer);
    PagesAreShort(s, org, owner, candidates, 0);
  }

  predicate Returnable(r: Record, org: Org, owner: Sub) {
    r.org == org && r.owner == owner && r.status == Confirmed && !r.deleted
  }

  lemma {:induction false} RankLength(hits: seq<Hit>)
    ensures |Rank(hits)| == |hits|
  {
    if |hits| != 0 {
      RankLength(hits[1..]);
      PlaceLength(hits[0], Rank(hits[1..]));
    }
  }

  lemma {:induction false} PlaceLength(h: Hit, hits: seq<Hit>)
    ensures |Place(h, hits)| == |hits| + 1
  {
    if |hits| != 0 {
      PlaceLength(h, hits[1..]);
    }
  }

  /**
   After any run, with nothing pending and no more than thirty candidates, following the cursor gives
   a caller exactly its own confirmed memories that are not forgotten, and of those only what a failed
   confirmation left behind in the collection searched is missing.
   */
  lemma RecallIsComplete(cfg: Config, seeds: map<Id, Record>, events: seq<Event>, org: Org, owner: Sub, layout: Layout,
                         score: string -> real, answer: seq<Hit>, id: Id)
    requires SeedsOk(cfg, seeds) && TenantsOk(cfg) && org in cfg.tenants && |answer| <= 30
    requires var s := After(cfg, Start(cfg, seeds), events);
      NothingPending(s, org) && FullAnswer(s, Searched(cfg, layout, org), org, owner, layout, score, answer)
    ensures var s := After(cfg, Start(cfg, seeds), events);
      (exists h :: h in Results(FollowCursor(s, org, owner, Rank(answer), 0)) && h.id == id)
      <==> id in s.records && Returnable(s.records[id], org, owner) && !Shadowed(s, Searched(cfg, layout, org), id)
  {
    var s := After(cfg, Start(cfg, seeds), events);
    var c := Searched(cfg, layout, org);
    RecallPagesAreExact(s, org, owner, answer);
    RankSorts(answer);
    RankLength(answer);
    assert Rank(answer)[..|Rank(answer)|] == Rank(answer);
    if id in s.records && Returnable(s.records[id], org, owner) {
      FoundExactly(cfg, seeds, events, id, layout, org, owner);
      if !Shadowed(s, c, id) {
        assert Hit(score(At(s, c, id).value.content), id) in answer;
      }
    }
  }

  lemma {:induction false} ReadBackShortens(s: Store, org: Org, owner: Sub, hits: seq<Hit>)
    ensures |ReadBack(s, org, owner, hits)| <= |hits|
  {
    if |hits| != 0 {
      ReadBackShortens(s, org, owner, hits[1..]);
    }
  }

  lemma {:induction false} PagesAreShort(s: Store, org: Org, owner: Sub, candidates: seq<Hit>, offset: nat)
    ensures forall i :: 0 <= i < |FollowCursor(s, org, owner, candidates, offset)| ==>
      |FollowCursor(s, org, owner, candidates, offset)[i].results| <= RECALL_PAGE
    decreases RECALL_CEILING - offset
  {
    var page := Recall(s, org, owner, candidates, offset);
    if offset < RECALL_CEILING {
      ReadBackShortens(s, org, owner,
                       Top(candidates)[Min(offset, |Top(candidates)|)..Min(offset + RECALL_PAGE, |Top(candidates)|)]);
    }
    if page.next.Some? {
      PagesAreShort(s, org, owner, candidates, page.next.value);
    }
  }
}
