/**
 What becomes of one record's points: those of a forgotten record, those a failed confirmation leaves
 behind, and which of them reconcile names.
 */
module MemoryPoints {
  import opened Wrappers
  import opened MemoryStore
  import opened MemoryResults

  // ---------------------------------------------------------------------------------------------
  // The points of a forgotten record
  // ---------------------------------------------------------------------------------------------

  /** The event removes what the collection holds of forgotten records. */
  predicate Sweeps(cfg: Config, s: Store, e: Event, c: Collection) {
    s.scopeAll && c in Collections(cfg) && (e.FullInit? || e == InitSweep(c))
  }

  ghost predicate EverSwept(cfg: Config, s: Store, events: seq<Event>, c: Collection)
    decreases |events|
  {
    events != [] && (Sweeps(cfg, s, events[0], c) || EverSwept(cfg, Next(cfg, s, events[0]), events[1..], c))
  }

  predicate Forgotten(s: Store, id: Id) {
    id in s.records && s.records[id].deleted
  }

  /** A forgotten record as it was, with its point gone only if the collection was swept. */
  predicate Left(s: Store, t: Store, c: Collection, id: Id, swept: bool) {
    && id in s.records && id in t.records && t.records[id] == s.records[id]
    && At(t, c, id) == (if swept then None else At(s, c, id))
    && (Todo(id, Upsert) in s.pending ==> Todo(id, Upsert) in t.pending)
    && (Todo(id, Delete) in s.pending ==> Todo(id, Delete) in t.pending)
  }

  lemma WriteLeavesForgotten(cfg: Config, s: Store, x: Id, r: Record, fault: Fault, c: Collection, id: Id)
    requires Forgotten(s, id) && x != id
    ensures Left(s, Write(cfg, s, x, r, fault), c, id, false)
  {
    UpsertAt(cfg, Commit(s, x, r), x, r, fault, c, id);
  }

  lemma ForgetLeavesForgotten(cfg: Config, s: Store, org: Org, owner: Sub, root: Id, fault: Fault, c: Collection, id: Id)
    requires Forgotten(s, id)
    ensures Left(s, DoForget(cfg, s, org, owner, root, fault), c, id, false)
  {
    if Visible(s, org, owner, root) && s.scopeAll {
      var gone := Tree(s.records, VisibleIds(s, org, owner), root);
      assert id !in gone;
      DeleteAt(cfg, Bury(s, gone), org, gone, fault, c, id);
    }
  }

  lemma InitLeavesForgotten(cfg: Config, s: Store, c: Collection, id: Id)
    requires Forgotten(s, id) && cfg.tenants != map[]
    ensures Left(s, Init(cfg, s), c, id, s.scopeAll && c in Collections(cfg))
  {
    var h := CompleteForgets(s);
    assert At(h, c, id) == At(s, c, id);
    SetupAt(cfg, h, c, id);
  }

  lemma StepLeavesForgotten(cfg: Config, s: Store, e: Event, c: Collection, id: Id)
    requires Forgotten(s, id) && cfg.tenants != map[]
    ensures Left(s, Next(cfg, s, e), c, id, Sweeps(cfg, s, e, c))
  {
    match e {
      case Remember(org, owner, x, content, secret, fault) =>
        if x !in s.records && !secret {
          WriteLeavesForgotten(cfg, s, x, NewMemory(cfg, s, org, owner, content), fault, c, id);
        }
      case Confirm(org, owner, x, fault) =>
        if Visible(s, org, owner, x) && s.records[x].status == Unconfirmed {
          WriteLeavesForgotten(cfg, s, x, s.records[x].(status := Confirmed, auto := false), fault, c, id);
        }
      case Summarise(org, owner, source, x, fault) =>
        if x !in s.records && Visible(s, org, owner, source) {
          WriteLeavesForgotten(cfg, s, x, NewSummary(cfg, s, org, owner, source), fault, c, id);
        }
      case Forget(org, owner, x, fault) => ForgetLeavesForgotten(cfg, s, org, owner, x, fault, c, id);
      case FullInit => InitLeavesForgotten(cfg, s, c, id);
      case InitWrite(d, x) =>
        if d in Collections(cfg) && Missing(cfg, s, d, x) {
          PutAt(s, d, x, PointOf(s.records[x], d, s.records[x].hash), c, id);
        }
      case _ =>
    }
  }

  /** A forgotten record stays forgotten, and its point stays exactly until its collection is swept. */
  lemma {:induction false} ForgottenPointStays(cfg: Config, s: Store, events: seq<Event>, c: Collection, id: Id)
    requires Forgotten(s, id) && cfg.tenants != map[]
    ensures Left(s, After(cfg, s, events), c, id, EverSwept(cfg, s, events, c))
    decreases |events|
  {
    if events != [] {
      StepLeavesForgotten(cfg, s, events[0], c, id);
      ForgottenPointStays(cfg, Next(cfg, s, events[0]), events[1..], c, id);
    }
  }

  // --- the moment of forgetting ---

  /** The event forgets the record. */
  ghost predicate Forgets(cfg: Config, s: Store, e: Event, id: Id) {
    Live(s, id) && !Live(Next(cfg, s, e), id)
  }

  lemma WriteKeepsLive(cfg: Config, s: Store, x: Id, r: Record, fault: Fault, id: Id)
    requires Live(s, id) && !r.deleted
    ensures Live(Write(cfg, s, x, r, fault), id)
  {
    UpsertAt(cfg, Commit(s, x, r), x, r, fault, SHARED, id);
  }

  lemma ForgetEvents(cfg: Config, s: Store, e: Event, id: Id)
    requires Forgets(cfg, s, e, id)
    ensures e.Forget? || (s.scopeAll && (e.FullInit? || e.InitForgets?))
    ensures Forgotten(Next(cfg, s, e), id) && Next(cfg, s, e).records[id] == s.records[id].(deleted := true)
  {
    match e {
      case Remember(org, owner, x, content, secret, fault) =>
        if x !in s.records && !secret {
          WriteKeepsLive(cfg, s, x, NewMemory(cfg, s, org, owner, content), fault, id);
        }
      case Confirm(org, owner, x, fault) =>
        if Visible(s, org, owner, x) && s.records[x].status == Unconfirmed {
          WriteKeepsLive(cfg, s, x, s.records[x].(status := Confirmed, auto := false), fault, id);
        }
      case Summarise(org, owner, source, x, fault) =>
        if x !in s.records && Visible(s, org, owner, source) {
          WriteKeepsLive(cfg, s, x, NewSummary(cfg, s, org, owner, source), fault, id);
        }
      case Forget(org, owner, x, fault) =>
        if Visible(s, org, owner, x) && s.scopeAll {
          var gone := Tree(s.records, VisibleIds(s, org, owner), x);
          DeleteAt(cfg, Bury(s, gone), org, gone, fault, SHARED, id);
        }
      case _ =>
    }
  }

  /** The two layouts are left alike by whatever forgets a record, unless something stays pending. */
  lemma ForgottenAlike(cfg: Config, s: Store, e: Event, id: Id)
    requires Core(cfg, s) && LayoutsAgree(cfg, s, false) && Forgets(cfg, s, e, id) && s.records[id].org in cfg.tenants
    requires forall op :: Todo(id, op) !in Next(cfg, s, e).pending
    ensures var t := Next(cfg, s, e);
      SamePoint(At(t, TenantCollection(cfg.tenants[s.records[id].org]), id), At(t, SHARED, id))
  {
    var t, c := Next(cfg, s, e), TenantCollection(cfg.tenants[s.records[id].org]);
    ForgetEvents(cfg, s, e, id);
    assert c in Collections(cfg) && Agrees(cfg, s, false, id);
    match e {
      case Forget(org, owner, x, fault) => ForgetLeavesAlike(cfg, s, org, owner, x, fault, id);
      case FullInit =>
        SetupAt(cfg, CompleteForgets(s), c, id);
        SetupAt(cfg, CompleteForgets(s), SHARED, id);
      case InitForgets =>
    }
  }

  lemma ForgetLeavesAlike(cfg: Config, s: Store, org: Org, owner: Sub, x: Id, fault: Fault, id: Id)
    requires Core(cfg, s) && Agrees(cfg, s, false, id) && Live(s, id) && s.records[id].org in cfg.tenants
    requires var t := DoForget(cfg, s, org, owner, x, fault); !Live(t, id) && forall op :: Todo(id, op) !in t.pending
    ensures var t := DoForget(cfg, s, org, owner, x, fault);
      SamePoint(At(t, TenantCollection(cfg.tenants[s.records[id].org]), id), At(t, SHARED, id))
  {
    var t, c := DoForget(cfg, s, org, owner, x, fault), TenantCollection(cfg.tenants[s.records[id].org]);
    if s.scopeAll {
      var gone := Tree(s.records, VisibleIds(s, org, owner), x);
      ForgetReach(cfg, s, org, owner, x);
      DeleteAt(cfg, Bury(s, gone), org, gone, fault, c, id);
      DeleteAt(cfg, Bury(s, gone), org, gone, fault, SHARED, id);
      assert id in gone && s.records[id].org == org;
      assert Todo(id, Delete) in Bury(s, gone).pending;
    } else {
      assert forall op :: Todo(id, op) !in s.pending;
    }
  }

  /** A record that is live at the start and forgotten at the end was forgotten by some event. */
  lemma {:induction false} ForgottenSometime(cfg: Config, s: Store, events: seq<Event>, id: Id) returns (k: nat)
    requires !Forgotten(s, id) && Forgotten(After(cfg, s, events), id)
    ensures k < |events| && Forgets(cfg, After(cfg, s, events[..k]), events[k], id)
    decreases |events|
  {
    var t := Next(cfg, s, events[0]);
    if Forgotten(t, id) {
      k := 0;
      if id !in s.records {
        NewRecordIsLive(cfg, s, events[0], id);
      }
      assert events[..0] == [];
    } else {
      k := ForgottenSometime(cfg, t, events[1..], id);
      assert events[..k + 1][0] == events[0] && events[..k + 1][1..] == events[1..][..k];
      k := k + 1;
    }
  }

  lemma NewRecordIsLive(cfg: Config, s: Store, e: Event, id: Id)
    requires id !in s.records
    ensures !Forgotten(Next(cfg, s, e), id)
  {
    match e {
      case Forget(org, owner, x, fault) =>
        if Visible(s, org, owner, x) && s.scopeAll {
          var gone := Tree(s.records, VisibleIds(s, org, owner), x);
          DeleteAt(cfg, Bury(s, gone), org, gone, fault, SHARED, id);
        }
      case Remember(org, owner, x, content, secret, fault) =>
        if x !in s.records && !secret {
          NewWriteIsLive(cfg, s, x, NewMemory(cfg, s, org, owner, content), fault, id);
        }
      case Confirm(org, owner, x, fault) =>
        if Visible(s, org, owner, x) && s.records[x].status == Unconfirmed {
          NewWriteIsLive(cfg, s, x, s.records[x].(status := Confirmed, auto := false), fault, id);
        }
      case Summarise(org, owner, source, x, fault) =>
        if x !in s.records && Visible(s, org, owner, source) {
          NewWriteIsLive(cfg, s, x, NewSummary(cfg, s, org, owner, source), fault, id);
        }
      case _ =>
    }
  }

  lemma NewWriteIsLive(cfg: Config, s: Store, x: Id, r: Record, fault: Fault, id: Id)
    requires id !in s.records && !r.deleted
    ensures !Forgotten(Write(cfg, s, x, r, fault), id)
  {
    UpsertAt(cfg, Commit(s, x, r), x, r, fault, SHARED, id);
  }

  // ---------------------------------------------------------------------------------------------
  // What reconcile names
  // ---------------------------------------------------------------------------------------------

  /** The collection lacks the point of a live record, or holds that of a forgotten one. */
  predicate OutOfStep(cfg: Config, s: Store, c: Collection, id: Id) {
    && c in Collections(cfg) && id in s.records && Belongs(cfg, c, s.records[id].org)
    && (Live(s, id) <==> At(s, c, id).None?)
  }

  /**
   After any run reconcile names a record exactly when some collection of its is out of step in this
   way: what a point says of its record's status is never named, pending or not.
   */
  lemma NamedExactly(cfg: Config, seeds: map<Id, Record>, events: seq<Event>, id: Id)
    requires SeedsOk(cfg, seeds) && cfg.tenants != map[]
    ensures var s := After(cfg, Start(cfg, seeds), events);
      (exists c, kind :: Disagrees(cfg, s, c, id, kind)) <==> exists c :: OutOfStep(cfg, s, c, id)
  {
    var s := After(cfg, Start(cfg, seeds), events);
    StartOk(cfg, seeds);
    RunKeeps(cfg, Start(cfg, seeds), events);
    forall c, kind | Disagrees(cfg, s, c, id, kind) ensures OutOfStep(cfg, s, c, id) {
      assert PointOk(cfg, s, c, id);
    }
    if c :| OutOfStep(cfg, s, c, id) {
      assert Disagrees(cfg, s, c, id, if Live(s, id) then NoPoint else ForgottenPoint);
    }
  }

  // ---------------------------------------------------------------------------------------------
  // What a failed confirmation leaves behind
  // ---------------------------------------------------------------------------------------------

  /** A record confirmed by hand whose point, if it has one, says that it is not. */
  predicate Shadowed(s: Store, c: Collection, id: Id) {
    && id in s.records && s.records[id].status == Confirmed && !s.records[id].auto
    && (At(s, c, id).Some? ==> At(s, c, id).value.status == Unconfirmed)
    && (Live(s, id) ==> At(s, c, id).Some?)
  }

  /** How far an upsert has to get to reach a collection. */
  predicate Reaches(cfg: Config, org: Org, p: Progress, c: Collection)
    requires org in cfg.tenants
  {
    p in {Both, Marked} || (p == First && c == TenantCollection(cfg.tenants[org]))
  }

  /** A confirmation leaves the point of a collection behind exactly when its upsert never got there. */
  lemma ConfirmShadowsExactly(cfg: Config, s: Store, org: Org, owner: Sub, id: Id, fault: Fault, c: Collection)
    requires Visible(s, org, owner, id) && s.records[id].status == Unconfirmed && org in cfg.tenants
    requires c in {SHARED, TenantCollection(cfg.tenants[org])}
    requires At(s, c, id).Some? && At(s, c, id).value.status == Unconfirmed
    ensures Shadowed(DoConfirm(cfg, s, org, owner, id, fault), c, id)
            <==> !Reaches(cfg, org, UpsertProgress(cfg, org, fault), c)
  {
    var r := s.records[id].(status := Confirmed, auto := false);
    UpsertAt(cfg, Commit(s, id, r), id, r, fault, c, id);
  }

  lemma WriteKeepsShadow(cfg: Config, s: Store, x: Id, r: Record, fault: Fault, c: Collection, id: Id)
    requires Shadowed(s, c, id) && x != id
    ensures Shadowed(Write(cfg, s, x, r, fault), c, id)
  {
    UpsertAt(cfg, Commit(s, x, r), x, r, fault, c, id);
  }

  lemma ForgetKeepsShadow(cfg: Config, s: Store, org: Org, owner: Sub, root: Id, fault: Fault, c: Collection, id: Id)
    requires Shadowed(s, c, id)
    ensures Shadowed(DoForget(cfg, s, org, owner, root, fault), c, id)
  {
    if Visible(s, org, owner, root) && s.scopeAll {
      var gone := Tree(s.records, VisibleIds(s, org, owner), root);
      DeleteAt(cfg, Bury(s, gone), org, gone, fault, c, id);
    }
  }

  lemma InitKeepsShadow(cfg: Config, s: Store, c: Collection, id: Id)
    requires Shadowed(s, c, id)
    ensures Shadowed(Init(cfg, s), c, id)
  {
    var h := CompleteForgets(s);
    assert At(h, c, id) == At(s, c, id);
    if cfg.tenants != map[] {
      SetupAt(cfg, h, c, id);
    }
  }

  lemma StepKeepsShadow(cfg: Config, s: Store, e: Event, c: Collection, id: Id)
    requires Shadowed(s, c, id)
    ensures Shadowed(Next(cfg, s, e), c, id)
  {
    match e {
      case Remember(org, owner, x, content, secret, fault) =>
        if x !in s.records && !secret {
          WriteKeepsShadow(cfg, s, x, NewMemory(cfg, s, org, owner, content), fault, c, id);
        }
      case Confirm(org, owner, x, fault) =>
        if Visible(s, org, owner, x) && s.records[x].status == Unconfirmed {
          WriteKeepsShadow(cfg, s, x, s.records[x].(status := Confirmed, auto := false), fault, c, id);
        }
      case Summarise(org, owner, source, x, fault) =>
        if x !in s.records && Visible(s, org, owner, source) {
          WriteKeepsShadow(cfg, s, x, NewSummary(cfg, s, org, owner, source), fault, c, id);
        }
      case Forget(org, owner, x, fault) => ForgetKeepsShadow(cfg, s, org, owner, x, fault, c, id);
      case FullInit => InitKeepsShadow(cfg, s, c, id);
      case InitWrite(d, x) =>
        if d in Collections(cfg) && Missing(cfg, s, d, x) {
          PutAt(s, d, x, PointOf(s.records[x], d, s.records[x].hash), c, id);
        }
      case _ =>
    }
  }

  /** Nothing mends it, whatever happens: no request, no revocation, no memory-init. */
  lemma {:induction false} ShadowedForever(cfg: Config, s: Store, events: seq<Event>, c: Collection, id: Id)
    requires Shadowed(s, c, id)
    ensures Shadowed(After(cfg, s, events), c, id)
    decreases |events|
  {
    if events != [] {
      StepKeepsShadow(cfg, s, events[0], c, id);
      ShadowedForever(cfg, Next(cfg, s, events[0]), events[1..], c, id);
    }
  }

  lemma EmptyStart(cfg: Config)
    requires cfg.tenants != map[]
    ensures var s := Start(cfg, map[]);
      && s.records == map[] && s.pending == {} && !s.autoConfirm
      && forall c, id :: At(s, c, id).None?
  {
    var s := Store(map[], {}, map[], true, false);
    NothingToComplete(s);
    forall c, id ensures At(Start(cfg, map[]), c, id).None? {
      SetupAt(cfg, s, c, id);
    }
  }

  /** The store holds one live record of the organisation, with its point in both collections. */
  ghost predicate OnlyOne(cfg: Config, s: Store, org: Org)
    requires org in cfg.tenants
  {
    && s.records.Keys == {0} && Live(s, 0) && s.records[0].org == org
    && forall c, x :: PointPlaced(cfg, s, org, c, x)
  }

  predicate PointPlaced(cfg: Config, s: Store, org: Org, c: Collection, x: Id)
    requires org in cfg.tenants
  {
    if x == 0 && 0 in s.records && c in {SHARED, TenantCollection(cfg.tenants[org])} then
      At(s, c, x).Some? && At(s, c, x).value.status == Unconfirmed && At(s, c, x).value.hash == s.records[0].hash
    else At(s, c, x).None?
  }

  lemma OnlyOneIsClean(cfg: Config, s: Store, org: Org)
    requires org in cfg.tenants && OnlyOne(cfg, s, org)
    ensures Clean(cfg, s)
  {
    forall c, id, kind ensures !Disagrees(cfg, s, c, id, kind) {
      assert PointPlaced(cfg, s, org, c, id);
    }
  }

  lemma FirstRemember(cfg: Config, s: Store, org: Org, owner: Sub, content: string)
    requires org in cfg.tenants && s.records == map[] && !s.autoConfirm && forall c, x :: At(s, c, x).None?
    ensures var t := Next(cfg, s, Remember(org, owner, 0, content, false, NoFault));
      OnlyOne(cfg, t, org) && t.records[0] == NewMemory(cfg, s, org, owner, content)
  {
    var r := NewMemory(cfg, s, org, owner, content);
    var t := Next(cfg, s, Remember(org, owner, 0, content, false, NoFault));
    UpsertAt(cfg, Commit(s, 0, r), 0, r, NoFault, SHARED, 0);
    forall c, x ensures PointPlaced(cfg, t, org, c, x) {
      UpsertAt(cfg, Commit(s, 0, r), 0, r, NoFault, c, x);
      assert At(Commit(s, 0, r), c, x) == At(s, c, x) == None;
    }
  }

  lemma ConfirmWithoutEmbedder(cfg: Config, s: Store, org: Org, owner: Sub)
    requires org in cfg.tenants && OnlyOne(cfg, s, org) && s.records[0].owner == owner && s.records[0].status == Unconfirmed
    ensures var t := Next(cfg, s, Confirm(org, owner, 0, AtEmbedder));
      OnlyOne(cfg, t, org) && t.records[0].status == Confirmed && !t.records[0].auto && Todo(0, Upsert) in t.pending
  {
    var t := Next(cfg, s, Confirm(org, owner, 0, AtEmbedder));
    assert t == Commit(s, 0, s.records[0].(status := Confirmed, auto := false));
    forall c, x ensures PointPlaced(cfg, t, org, c, x) {
      assert PointPlaced(cfg, s, org, c, x);
    }
  }

  /**
   From the first memory-init: remembered, then confirmed while the embedder is down. The row is
   pending, both layouts keep saying unconfirmed, and reconcile reports nothing.
   */
  lemma FailedConfirmIsReachable(cfg: Config, org: Org, owner: Sub, content: string)
    requires TenantsOk(cfg) && org in cfg.tenants
    ensures var s := After(cfg, Start(cfg, map[]),
                           [Remember(org, owner, 0, content, false, NoFault), Confirm(org, owner, 0, AtEmbedder)]);
      && Live(s, 0) && Todo(0, Upsert) in s.pending && Clean(cfg, s)
      && Shadowed(s, SHARED, 0) && Shadowed(s, TenantCollection(cfg.tenants[org]), 0)
  {
    var s0, e, f := Start(cfg, map[]), Remember(org, owner, 0, content, false, NoFault), Confirm(org, owner, 0, AtEmbedder);
    EmptyStart(cfg);
    FirstRemember(cfg, s0, org, owner, content);
    var s1 := Next(cfg, s0, e);
    ConfirmWithoutEmbedder(cfg, s1, org, owner);
    var s := Next(cfg, s1, f);
    OnlyOneIsClean(cfg, s, org);
    assert PointPlaced(cfg, s, org, SHARED, 0) && PointPlaced(cfg, s, org, TenantCollection(cfg.tenants[org]), 0);
    TwoSteps(cfg, s0, e, f);
  }

  lemma TwoSteps(cfg: Config, s: Store, e: Event, f: Event)
    ensures After(cfg, s, [e, f]) == Next(cfg, Next(cfg, s, e), f)
  {
    assert [e, f][1..] == [f] && [f][1..] == [];
    assert After(cfg, Next(cfg, s, e), [f]) == After(cfg, Next(cfg, Next(cfg, s, e), f), []);
  }

  // ---------------------------------------------------------------------------------------------
  // What one request or repair writes
  // ---------------------------------------------------------------------------------------------

  /** How far an upsert gets, and when its outbox row is done with, by where it stops and whether that call landed. */
  lemma UpsertReachesExactly(cfg: Config, s: Store, id: Id, r: Record, fault: Fault)
    ensures var p, known := UpsertProgress(cfg, r.org, fault), r.org in cfg.tenants;
      && (p == Nothing <==> !known || fault in {NotConfigured, AtEmbedder, AtPerTenant(false)})
      && (p == First <==> known && fault in {AtPerTenant(true), AtShared(false)})
      && (p == Both <==> known && fault in {AtShared(true), AtMarking(false)})
      && (p == Marked <==> known && fault in {NoFault, AtMarking(true)})
      && ApplyUpsert(cfg, s, id, r, fault).pending == (if p == Marked then s.pending - {Todo(id, Upsert)} else s.pending)
  {
  }

  /** A delete stops in the same places, but needs no embedder. */
  lemma DeleteReachesExactly(cfg: Config, s: Store, org: Org, ids: set<Id>, fault: Fault)
    ensures var p, known := DeleteProgress(cfg, org, fault), org in cfg.tenants;
      && (p == Nothing <==> !known || fault in {NotConfigured, AtPerTenant(false)})
      && (p == First <==> known && fault in {AtPerTenant(true), AtShared(false)})
      && (p == Both <==> known && fault in {AtShared(true), AtMarking(false)})
      && (p == Marked <==> known && fault in {NoFault, AtEmbedder, AtMarking(true)})
    ensures forall todo :: todo in ApplyDelete(cfg, s, org, ids, fault).pending
                           <==> todo in s.pending && !(DeleteProgress(cfg, org, fault) == Marked && todo.op == Delete && todo.id in ids)
  {
  }

  /** Armed, forgetting marks the one record and leaves what was derived from it, the points and the outbox as they were. */
  lemma ArmedForgetExactly(cfg: Config, s: Store, org: Org, owner: Sub, id: Id, fault: Fault, x: Id)
    requires !s.scopeAll && x in s.records
    ensures var t := Next(cfg, s, Forget(org, owner, id, fault));
      && t.points == s.points && t.pending == s.pending && t.records.Keys == s.records.Keys
      && t.records[x] == s.records[x].(deleted := t.records[x].deleted)
      && (t.records[x].deleted <==>
            s.records[x].deleted || (x == id && s.records[x].org == org && s.records[x].owner == owner))
  {
  }

  /** Where memory-init looks for a record's point. */
  predicate Housed(cfg: Config, c: Collection, org: Org) {
    c == "memories__shared" || c == "memories__" + SlugText(cfg, org)
  }

  /** The point of a record, taken from its row. */
  function PointFor(r: Record, c: Collection): Point {
    Point(r.owner, r.channel, r.status, r.hash, r.content, if c == "memories__shared" then Some(r.org) else None)
  }

  lemma SetupWrites(cfg: Config, s: Store, c: Collection, id: Id)
    requires cfg.tenants != map[] && c in Collections(cfg)
    ensures var t := Setup(cfg, s);
      && t.records == s.records
      && (At(s, c, id).Some? ==>
            At(t, c, id) == if s.scopeAll && (id !in s.records || s.records[id].deleted) then None else At(s, c, id))
      && (At(s, c, id).None? ==>
            At(t, c, id) == if id in s.records && !s.records[id].deleted && Housed(cfg, c, s.records[id].org)
                            then Some(PointFor(s.records[id], c)) else None)
  {
    SetupAt(cfg, s, c, id);
  }

  /**
   Every point after a memory-init without an error: what was there stays as it was, or goes if its
   record is forgotten and forgetting is complete; what a live record lacked is written from its row.
   */
  lemma InitWritesExactly(cfg: Config, s: Store, c: Collection, id: Id)
    requires cfg.tenants != map[] && c in Collections(cfg)
    ensures var t := Next(cfg, s, FullInit);
      && t.records.Keys == s.records.Keys
      && (At(s, c, id).Some? ==>
            At(t, c, id) == if s.scopeAll && (id !in t.records || t.records[id].deleted) then None else At(s, c, id))
      && (At(s, c, id).None? ==>
            At(t, c, id) == if id in t.records && !t.records[id].deleted && Housed(cfg, c, t.records[id].org)
                            then Some(PointFor(t.records[id], c)) else None)
  {
    var u := CompleteForgets(s);
    SetupWrites(cfg, u, c, id);
    assert At(u, c, id) == At(s, c, id);
  }

  /** What an interrupted memory-init does to one collection: writes a point that was lacking, or sweeps, and neither without a tenant. */
  lemma PartialInitExactly(cfg: Config, s: Store, c: Collection, id: Id)
    ensures var t := Next(cfg, s, InitWrite(c, id));
      && t == s.(points := t.points)
      && (t != s <==> && cfg.tenants != map[] && c in Collections(cfg) && At(s, c, id).None?
                      && id in s.records && !s.records[id].deleted && Housed(cfg, c, s.records[id].org))
      && (t != s ==> At(t, c, id) == Some(PointFor(s.records[id], c)))
    ensures var t := Next(cfg, s, InitSweep(c));
      && t == s.(points := t.points)
      && (At(t, c, id).Some? <==>
            && At(s, c, id).Some?
            && (cfg.tenants == map[] || c !in Collections(cfg) || !s.scopeAll || (id in s.records && !s.records[id].deleted)))
  {
  }
}
