/** What reconcile, forget, memory-init and the two layouts promise, over every run. */
module MemoryResults {
  import opened Wrappers
  import opened MemoryStore

  // ---------------------------------------------------------------------------------------------
  // Reconciliation
  // ---------------------------------------------------------------------------------------------

  datatype Kind = ForgottenPoint | NoPoint | HashDiffers | NoRecord

  /** What reconcile reports about one id in one collection. */
  predicate Disagrees(cfg: Config, s: Store, c: Collection, id: Id, kind: Kind) {
    && c in Collections(cfg)
    && (kind != NoRecord ==> id in s.records && Belongs(cfg, c, s.records[id].org))
    && match kind
       case ForgottenPoint => s.records[id].deleted && At(s, c, id).Some?
       case NoPoint => !s.records[id].deleted && At(s, c, id).None?
       case HashDiffers =>
         !s.records[id].deleted && At(s, c, id).Some? && At(s, c, id).value.hash != s.records[id].hash
       case NoRecord => id !in s.records && At(s, c, id).Some?
  }

  ghost predicate Clean(cfg: Config, s: Store) {
    forall c, id, kind :: !Disagrees(cfg, s, c, id, kind)
  }

  /** While forgetting is set to be complete, whatever fails, everything reconcile names is pending. */
  lemma DisagreementsArePending(cfg: Config, seeds: map<Id, Record>, events: seq<Event>, c: Collection, id: Id, kind: Kind)
    requires SeedsOk(cfg, seeds) && cfg.tenants != map[] && SetScope(false) !in events
    requires Disagrees(cfg, After(cfg, Start(cfg, seeds), events), c, id, kind)
    ensures kind == NoPoint || kind == ForgottenPoint
    ensures Todo(id, if kind == NoPoint then Upsert else Delete) in After(cfg, Start(cfg, seeds), events).pending
  {
    var s := After(cfg, Start(cfg, seeds), events);
    StartOk(cfg, seeds);
    RunKeeps(cfg, Start(cfg, seeds), events);
    assert PointOk(cfg, s, c, id) && HasPoint(cfg, s, c, id) && GoneOrPending(s, c, id);
  }

  /**
   After any run at all, an error-free memory-init leaves reconcile nothing to report but, while
   forgetting is armed, exactly the points of forgotten records.
   */
  lemma InitRepairs(cfg: Config, seeds: map<Id, Record>, events: seq<Event>, c: Collection, id: Id, kind: Kind)
    requires SeedsOk(cfg, seeds) && cfg.tenants != map[]
    ensures var s := After(cfg, Start(cfg, seeds), events);
      Disagrees(cfg, Init(cfg, s), c, id, kind) <==>
        && kind == ForgottenPoint && !s.scopeAll
        && c in Collections(cfg) && id in s.records && s.records[id].deleted && At(s, c, id).Some?
  {
    var s := After(cfg, Start(cfg, seeds), events);
    StartOk(cfg, seeds);
    RunKeeps(cfg, Start(cfg, seeds), events);
    var t := CompleteForgets(s);
    if s.scopeAll {
      HideKeeps(cfg, s, Survivors(s.records));
    }
    assert At(t, c, id) == At(s, c, id);
    SetupAt(cfg, t, c, id);
    assert PointOk(cfg, t, c, id) && PointOk(cfg, s, c, id);
  }

  /** So with forgetting back at its secure value, the repaired store is clean. */
  lemma InitWithScopeAllIsClean(cfg: Config, seeds: map<Id, Record>, events: seq<Event>)
    requires SeedsOk(cfg, seeds) && cfg.tenants != map[]
    requires After(cfg, Start(cfg, seeds), events).scopeAll
    ensures Clean(cfg, Init(cfg, After(cfg, Start(cfg, seeds), events)))
  {
    var t := Init(cfg, After(cfg, Start(cfg, seeds), events));
    forall c, id, kind ensures !Disagrees(cfg, t, c, id, kind) {
      InitRepairs(cfg, seeds, events, c, id, kind);
    }
  }

  // ---------------------------------------------------------------------------------------------
  // Forgetting reaches every copy
  // ---------------------------------------------------------------------------------------------

  predicate Descends(records: map<Id, Record>, root: Id, id: Id, k: nat) {
    Ancestor(records, id, k) == Some(root)
  }

  /** The live records derived from `root`, directly or through other records, and `root` itself. */
  ghost function LiveDescendants(s: Store, root: Id): set<Id> {
    set id | id in s.records && Live(s, id) && exists k: nat :: Descends(s.records, root, id, k)
  }

  /** A live descendant whose own source is forgotten: what the Range counts as a leftover of 9.8. */
  predicate Leftover(s: Store, root: Id, id: Id, k: nat) {
    && id != root && Live(s, id) && Descends(s.records, root, id, k)
    && s.records[id].derivedFrom.Some? && !Live(s, s.records[id].derivedFrom.value)
  }

  lemma {:induction false} HangsDescends(s: Store, seen: set<Id>, root: Id, id: Id, k: nat)
    requires Hangs(s.records, seen, root, id, k)
    ensures Descends(s.records, root, id, k) && id in seen
    decreases k
  {
    if k > 0 {
      HangsDescends(s, seen, root, s.records[id].derivedFrom.value, k - 1);
    }
  }

  lemma {:induction false} LiveDescends(s: Store, root: Id, id: Id, k: nat)
    requires forall x, j: nat :: !Leftover(s, root, x, j)
    requires Live(s, id) && Descends(s.records, root, id, k)
    ensures InTree(s.records, LiveIds(s), root, id)
    decreases k
  {
    if id == root {
      assert Hangs(s.records, LiveIds(s), root, id, 0);
    } else {
      assert !Leftover(s, root, id, k);
      var parent := s.records[id].derivedFrom.value;
      LiveDescends(s, root, parent, k - 1);
      var j: nat :| Hangs(s.records, LiveIds(s), root, parent, j);
      assert Hangs(s.records, LiveIds(s), root, id, j + 1);
    }
  }

  /**
   What the visible walk of forget removes is the whole set of live descendants, exactly when no
   earlier forget left a derivation behind under this record.
   */
  lemma ForgetReachesDescendants(cfg: Config, s: Store, org: Org, owner: Sub, root: Id)
    requires Core(cfg, s) && Visible(s, org, owner, root)
    ensures Tree(s.records, VisibleIds(s, org, owner), root) == LiveDescendants(s, root)
       <==> forall id, k: nat :: !Leftover(s, root, id, k)
  {
    ForgetReach(cfg, s, org, owner, root);
    var gone := Tree(s.records, LiveIds(s), root);
    forall id | id in gone ensures id in LiveDescendants(s, root) {
      var k: nat :| Hangs(s.records, LiveIds(s), root, id, k);
      HangsDescends(s, LiveIds(s), root, id, k);
    }
    if forall id, k: nat :: !Leftover(s, root, id, k) {
      forall id | id in LiveDescendants(s, root) ensures id in gone {
        var k: nat :| Descends(s.records, root, id, k);
        LiveDescends(s, root, id, k);
      }
    } else {
      var id, k: nat :| Leftover(s, root, id, k);
      assert id in LiveDescendants(s, root);
      forall j: nat ensures !Hangs(s.records, LiveIds(s), root, id, j) {
      }
    }
  }

  /**
   In a run that never armed primary-only forgetting, a forget removes every live descendant and
   nothing else, whoever else owns records in the same store.
   */
  lemma ForgetIsComplete(cfg: Config, seeds: map<Id, Record>, events: seq<Event>, org: Org, owner: Sub, root: Id,
                         fault: Fault)
    requires SeedsOk(cfg, seeds) && cfg.tenants != map[] && SetScope(false) !in events
    requires Visible(After(cfg, Start(cfg, seeds), events), org, owner, root)
    ensures var s := After(cfg, Start(cfg, seeds), events);
      var t := DoForget(cfg, s, org, owner, root, fault);
      && t.records.Keys == s.records.Keys
      && forall id :: id in s.records ==>
           t.records[id] == if id in LiveDescendants(s, root) then s.records[id].(deleted := true) else s.records[id]
  {
    var s := After(cfg, Start(cfg, seeds), events);
    StartOk(cfg, seeds);
    RunKeeps(cfg, Start(cfg, seeds), events);
    forall id, k: nat ensures !Leftover(s, root, id, k) {
      assert ParentLive(s, id);
    }
    ForgetReachesDescendants(cfg, s, org, owner, root);
    var gone := Tree(s.records, VisibleIds(s, org, owner), root);
    DeleteAt(cfg, Bury(s, gone), org, gone, fault, SHARED, root);
  }

  // ---------------------------------------------------------------------------------------------
  // complete_forgets, from any state
  // ---------------------------------------------------------------------------------------------

  lemma {:induction false} AncestorKept(records: map<Id, Record>, gone: set<Id>, id: Id, k: nat)
    ensures Ancestor(MarkDeleted(records, gone), id, k) == Ancestor(records, id, k)
    decreases k
  {
    if k > 0 && id in records && records[id].derivedFrom.Some? {
      AncestorKept(records, gone, records[id].derivedFrom.value, k - 1);
    }
  }

  lemma {:induction false} AncestorOfAncestor(records: map<Id, Record>, id: Id, k: nat, j: nat)
    requires Ancestor(records, id, k).Some?
    ensures Ancestor(records, id, k + j) == Ancestor(records, Ancestor(records, id, k).value, j)
    decreases k
  {
    if k > 0 {
      AncestorOfAncestor(records, records[id].derivedFrom.value, k - 1, j);
    }
  }

  lemma UnderForgottenBefore(records: map<Id, Record>, id: Id)
    requires UnderForgotten(MarkDeleted(records, Survivors(records)), id)
    ensures UnderForgotten(records, id)
  {
    var gone := Survivors(records);
    var k: nat :| k > 0 && ForgottenAt(MarkDeleted(records, gone), id, k);
    AncestorKept(records, gone, id, k);
    var a := Ancestor(records, id, k).value;
    if records[a].deleted {
      assert ForgottenAt(records, id, k);
    } else {
      var j: nat :| j > 0 && ForgottenAt(records, a, j);
      AncestorOfAncestor(records, id, k, j);
      assert ForgottenAt(records, id, k + j);
    }
  }

  /**
   Whatever the state, completing the forgets leaves no live record under a forgotten one, and
   forgets only records that outlived something they were derived from.
   */
  lemma CompleteForgetsIsExact(s: Store, id: Id)
    requires s.scopeAll && id in s.records
    ensures var t := CompleteForgets(s);
      && id in t.records
      && (Live(t, id) ==> !UnderForgotten(t.records, id))
      && (Live(s, id) && !Live(t, id) <==> Live(s, id) && UnderForgotten(s.records, id))
      && t == s.(records := t.records) && t.records[id] == s.records[id].(deleted := t.records[id].deleted)
  {
    if UnderForgotten(CompleteForgets(s).records, id) {
      UnderForgottenBefore(s.records, id);
    }
  }

  // ---------------------------------------------------------------------------------------------
  // One organisation per collection
  // ---------------------------------------------------------------------------------------------

  /** The slugs are distinct, and none reads as the shared collection or as a missing slug. */
  predicate TenantsOk(cfg: Config) {
    && cfg.tenants != map[]
    && (forall a, b :: a in cfg.tenants && b in cfg.tenants && cfg.tenants[a] == cfg.tenants[b] ==> a == b)
    && (forall a :: a in cfg.tenants ==> cfg.tenants[a] != "shared" && cfg.tenants[a] != "None")
  }

  /** Memory-init takes the stranger's records to belong in the collection of the organisation. */
  predicate Mixes(cfg: Config, org: Org, stranger: Org)
    requires org in cfg.tenants
  {
    stranger != org && (cfg.tenants[org] == "shared" || cfg.tenants[org] == SlugText(cfg, stranger))
  }

  ghost predicate Private(cfg: Config, s: Store, org: Org)
    requires org in cfg.tenants
  {
    forall id :: At(s, TenantCollection(cfg.tenants[org]), id).Some? ==> id in s.records && s.records[id].org == org
  }

  /** Only an organisation whose slug text is the same, or anybody in the shared collection, gets in. */
  lemma OnlyMixedGetIn(cfg: Config, seeds: map<Id, Record>, events: seq<Event>, org: Org, id: Id)
    requires SeedsOk(cfg, seeds) && org in cfg.tenants
    ensures var s := After(cfg, Start(cfg, seeds), events);
      At(s, TenantCollection(cfg.tenants[org]), id).Some? ==>
        id in s.records && (s.records[id].org == org || Mixes(cfg, org, s.records[id].org))
  {
    var s := After(cfg, Start(cfg, seeds), events);
    StartOk(cfg, seeds);
    RunKeeps(cfg, Start(cfg, seeds), events);
    assert PointOk(cfg, s, TenantCollection(cfg.tenants[org]), id);
    if id in s.records {
      TenantCollectionInjective(cfg.tenants[org], "shared");
      TenantCollectionInjective(cfg.tenants[org], SlugText(cfg, s.records[id].org));
    }
  }

  /** Another organisation's seeded memory is put in the collection by the first memory-init exactly if it mixes. */
  lemma StrangerGetsInExactly(cfg: Config, org: Org, r: Record)
    requires org in cfg.tenants && r.org != org && SeedsOk(cfg, map[0 := r])
    ensures At(Start(cfg, map[0 := r]), TenantCollection(cfg.tenants[org]), 0).Some? <==> Mixes(cfg, org, r.org)
  {
    var s := Store(map[0 := r], {}, map[], true, false);
    forall x ensures ParentLive(s, x) {
    }
    NothingToComplete(s);
    var c := TenantCollection(cfg.tenants[org]);
    assert c in Collections(cfg);
    SetupAt(cfg, s, c, 0);
    TenantCollectionInjective(cfg.tenants[org], "shared");
    TenantCollectionInjective(cfg.tenants[org], SlugText(cfg, r.org));
  }

  /**
   A tenant's collection holds only its own organisation's memories, in every run from every seed,
   exactly when no other organisation mixes with it: its slug is not `shared`, no other tenant has
   it, and it is not `None`, which is how a missing slug reads.
   */
  lemma PrivateExactly(cfg: Config, org: Org)
    requires org in cfg.tenants
    ensures (forall seeds, events | SeedsOk(cfg, seeds) :: Private(cfg, After(cfg, Start(cfg, seeds), events), org))
            <==> forall stranger :: !Mixes(cfg, org, stranger)
  {
    if stranger :| Mixes(cfg, org, stranger) {
      var seeds := StrangerGetsIn(cfg, org, stranger);
      var none: seq<Event> := [];
      assert !Private(cfg, After(cfg, Start(cfg, seeds), none), org);
    } else {
      forall seeds, events | SeedsOk(cfg, seeds) ensures Private(cfg, After(cfg, Start(cfg, seeds), events), org) {
        forall id { OnlyMixedGetIn(cfg, seeds, events, org, id); }
      }
    }
  }

  lemma StrangerGetsIn(cfg: Config, org: Org, stranger: Org) returns (seeds: map<Id, Record>)
    requires org in cfg.tenants && Mixes(cfg, org, stranger)
    ensures SeedsOk(cfg, seeds) && !Private(cfg, After(cfg, Start(cfg, seeds), []), org)
  {
    var r := Record(stranger, "", "", cfg.hash(""), ByRuntime, Confirmed, false, None, false);
    seeds := map[0 := r];
    StrangerGetsInExactly(cfg, org, r);
    var s := Start(cfg, seeds);
    assert s.records == seeds by {
      var fresh0 := Store(seeds, {}, map[], true, false);
      forall x ensures ParentLive(fresh0, x) {
      }
      NothingToComplete(fresh0);
    }
  }
}
