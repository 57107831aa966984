/**
 The memory service and memory-init, as they run: handlers and jobs that update the two stores.
 Every method is proved to do exactly what `MemoryStore` says its step does.
 */
module MemoryService {
  import opened Wrappers
  import opened MemoryStore
  import opened MemoryResults

  datatype Row = Row(id: Id, op: Op, pending: bool)

  datatype Audit = Audit(action: string, id: Id, decision: string)

  datatype Problem = Problem(collection: Collection, id: Id, kind: Kind)

  function PendingOf(outbox: seq<Row>): set<Todo> {
    set row | row in outbox && row.pending :: Todo(row.id, row.op)
  }

  predicate Fails(fault: Fault, layout: nat) {
    (layout == 0 && fault.AtPerTenant?) || (layout == 1 && fault.AtShared?)
  }

  function WrittenBefore(layout: nat): Progress {
    if layout == 0 then Nothing else if layout == 1 then First else Both
  }

  /** Whether a call or a commit that failed took effect all the same. */
  predicate Landed(fault: Fault) {
    match fault
    case AtPerTenant(landed) => landed
    case AtShared(landed) => landed
    case AtMarking(landed) => landed
    case _ => true
  }

  class Memory {
    const cfg: Config
    var records: map<Id, Record>
    var outbox: seq<Row>
    var points: map<Collection, map<Id, Point>>
    var audit: seq<Audit>
    var scopeAll: bool
    var autoConfirm: bool

    constructor (cfg: Config, seeds: map<Id, Record>)
      ensures this.cfg == cfg && State() == Store(seeds, {}, map[], true, false) && audit == []
    {
      this.cfg := cfg;
      records, outbox, points, audit := seeds, [], map[], [];
      scopeAll, autoConfirm := true, false;
    }

    ghost function State(): Store
      reads this
    {
      Store(records, PendingOf(outbox), points, scopeAll, autoConfirm)
    }

    // --- the outbox ---

    method Enqueue(id: Id, op: Op)
      modifies `outbox
      ensures State() == old(State()).(pending := old(State()).pending + {Todo(id, op)})
    {
      outbox := outbox + [Row(id, op, true)];
    }

    method EnqueueAll(ids: set<Id>, op: Op)
      modifies `outbox
      ensures State() == old(State()).(pending := old(State()).pending + set id | id in ids :: Todo(id, op))
    {
      var todo := ids;
      while todo != {}
        invariant todo <= ids
        invariant PendingOf(outbox) == old(PendingOf(outbox)) + set id | id in ids && id !in todo :: Todo(id, op)
      {
        var id :| id in todo;
        PendingOfAppend(outbox, Row(id, op, true));
        Enqueue(id, op);
        todo := todo - {id};
      }
    }

    method MarkApplied(ids: set<Id>, op: Op)
      modifies `outbox
      ensures State() == Mark(old(State()), ids, op)
    {
      var rows: seq<Row> := [];
      for i := 0 to |outbox|
        invariant outbox == old(outbox)
        invariant PendingOf(rows) == PendingOf(outbox[..i]) - set id | id in ids :: Todo(id, op)
      {
        var row := outbox[i];
        assert outbox[..i + 1] == outbox[..i] + [row];
        PendingOfAppend(outbox[..i], row);
        var marked := if row.id in ids && row.op == op then row.(pending := false) else row;
        PendingOfAppend(rows, marked);
        rows := rows + [marked];
      }
      assert outbox[..|outbox|] == outbox;
      outbox := rows;
    }

    // --- the vector store ---

    method PutPoint(c: Collection, id: Id, p: Point)
      modifies `points
      ensures State() == Put(old(State()), c, id, p)
    {
      points := points[c := (if c in points then points[c] else map[])[id := p]];
    }

    method DropPoints(c: Collection, ids: set<Id>)
      modifies `points
      ensures State() == Drop(old(State()), c, ids)
    {
      points := points[c := (if c in points then points[c] else map[]) - ids];
    }

    method UpsertPoint(id: Id, r: Record, fault: Fault) returns (ok: bool)
      modifies `points
      requires !fault.NotConfigured? && !fault.AtEmbedder?
      ensures State() == PutUpTo(cfg, old(State()), id, r, UpsertProgress(cfg, r.org, fault))
      ensures ok <==> r.org in cfg.tenants && !fault.AtPerTenant? && !fault.AtShared?
    {
      ghost var before := State();
      for layout := 0 to 2
        invariant layout > 0 ==> r.org in cfg.tenants && !fault.AtPerTenant?
        invariant State() == PutUpTo(cfg, before, id, r, WrittenBefore(layout))
        invariant layout == 2 ==> !fault.AtShared?
      {
        if layout == 0 && r.org !in cfg.tenants {
          return false;
        }
        var c := if layout == 0 then TenantCollection(cfg.tenants[r.org]) else SHARED;
        var p := NewPoint(cfg, r, if layout == 0 then None else Some(r.org));
        if !Fails(fault, layout) || Landed(fault) {
          PutPoint(c, id, p);
        }
        if Fails(fault, layout) {
          return false;
        }
      }
      return true;
    }

    method DeletePoints(org: Org, ids: set<Id>, fault: Fault) returns (ok: bool)
      modifies `points
      requires !fault.NotConfigured?
      ensures State() == DropUpTo(cfg, old(State()), org, ids, DeleteProgress(cfg, org, fault))
      ensures ok <==> org in cfg.tenants && !fault.AtPerTenant? && !fault.AtShared?
    {
      ghost var before := State();
      for layout := 0 to 2
        invariant layout > 0 ==> org in cfg.tenants && !fault.AtPerTenant?
        invariant State() == DropUpTo(cfg, before, org, ids, WrittenBefore(layout))
        invariant layout == 2 ==> !fault.AtShared?
      {
        if layout == 0 && org !in cfg.tenants {
          return false;
        }
        var c := if layout == 0 then TenantCollection(cfg.tenants[org]) else SHARED;
        if !Fails(fault, layout) || Landed(fault) {
          DropPoints(c, ids);
        }
        if Fails(fault, layout) {
          return false;
        }
      }
      return true;
    }

    /** After the commit: write both layouts, then mark the rows. A failure leaves them pending. */
    method ApplyUpserts(id: Id, r: Record, fault: Fault)
      modifies `points, `outbox
      ensures State() == ApplyUpsert(cfg, old(State()), id, r, fault)
    {
      if fault.NotConfigured? || fault.AtEmbedder? {
        return;
      }
      var ok := UpsertPoint(id, r, fault);
      if ok && (!fault.AtMarking? || Landed(fault)) {
        MarkApplied({id}, Upsert);
      }
    }

    method ApplyDeletes(org: Org, ids: set<Id>, fault: Fault)
      modifies `points, `outbox
      ensures State() == ApplyDelete(cfg, old(State()), org, ids, fault)
    {
      if fault.NotConfigured? {
        return;
      }
      var ok := DeletePoints(org, ids, fault);
      if ok && (!fault.AtMarking? || Landed(fault)) {
        MarkApplied(ids, Delete);
      }
    }

    // --- the handlers ---

    method RememberFact(org: Org, owner: Sub, id: Id, content: string, secret: bool, fault: Fault)
      requires id !in records
      modifies `records, `points, `outbox, `audit
      ensures State() == Next(cfg, old(State()), Remember(org, owner, id, content, secret, fault))
      ensures audit == old(audit) + [Audit("memory.remember", id, if secret then "denied" else "succeeded")]
    {
      if secret {
        audit := audit + [Audit("memory.remember", id, "denied")];
        return;
      }
      var status := if autoConfirm then Confirmed else Unconfirmed;
      var r := Record(org, owner, content, cfg.hash(content), ByAgent, status, autoConfirm, None, false);
      records := records[id := r];
      audit := audit + [Audit("memory.remember", id, "succeeded")];
      Enqueue(id, Upsert);
      ApplyUpserts(id, r, fault);
    }

    method ConfirmFact(org: Org, owner: Sub, id: Id, fault: Fault) returns (found: bool)
      modifies `records, `points, `outbox, `audit
      ensures State() == Next(cfg, old(State()), Confirm(org, owner, id, fault))
      ensures found <==> Visible(old(State()), org, owner, id) && old(records)[id].status == Unconfirmed
      ensures audit == old(audit) + [Audit("memory.confirm", id, if found then "succeeded" else "denied")]
    {
      found := id in records && records[id].org == org && records[id].owner == owner && !records[id].deleted
        && records[id].status == Unconfirmed;
      if !found {
        audit := audit + [Audit("memory.confirm", id, "denied")];
        return;
      }
      var r := records[id].(status := Confirmed, auto := false);
      records := records[id := r];
      audit := audit + [Audit("memory.confirm", id, "succeeded")];
      Enqueue(id, Upsert);
      ApplyUpserts(id, r, fault);
    }

    method SummariseFact(org: Org, owner: Sub, source: Id, id: Id, fault: Fault) returns (found: bool)
      requires id !in records
      modifies `records, `points, `outbox, `audit
      ensures State() == Next(cfg, old(State()), Summarise(org, owner, source, id, fault))
      ensures found <==> Visible(old(State()), org, owner, source)
      ensures audit == old(audit)
        + [if found then Audit("memory.summarise", id, "succeeded") else Audit("memory.summarise", source, "denied")]
    {
      found := source in records && records[source].org == org && records[source].owner == owner
        && !records[source].deleted;
      if !found {
        audit := audit + [Audit("memory.summarise", source, "denied")];
        return;
      }
      var text := records[source].content;
      var content := "Summary of an earlier memory: " + (if |text| <= 160 then text else text[..157] + "...");
      var r := Record(org, owner, content, cfg.hash(content), ByRuntime, records[source].status, false, Some(source), false);
      records := records[id := r];
      audit := audit + [Audit("memory.summarise", id, "succeeded")];
      Enqueue(id, Upsert);
      ApplyUpserts(id, r, fault);
    }

    /** The recursive query: each round adds the rows that hang from the rows the last round added. */
    method Walk(seen: set<Id>, root: Id) returns (tree: set<Id>)
      requires root in seen && seen <= records.Keys
      ensures tree == Tree(records, seen, root)
    {
      tree := {root};
      var edge := {root};
      assert Hangs(records, seen, root, root, 0);
      while edge != {}
        invariant edge <= tree <= seen && root in tree
        invariant forall id :: id in tree ==> InTree(records, seen, root, id)
        invariant forall id | id in seen && records[id].derivedFrom.Some? ::
          records[id].derivedFrom.value in tree - edge ==> id in tree
        decreases seen - tree, edge
      {
        var more := set id | id in seen && id !in tree && records[id].derivedFrom.Some?
          && records[id].derivedFrom.value in edge;
        forall id | id in more ensures InTree(records, seen, root, id) {
          var k: nat :| Hangs(records, seen, root, records[id].derivedFrom.value, k);
          assert Hangs(records, seen, root, id, k + 1);
        }
        if more != {} {
          var id :| id in more;
          assert id in seen - tree && id !in seen - (tree + more);
        }
        tree, edge := tree + more, more;
      }
      forall id, k: nat | Hangs(records, seen, root, id, k) ensures id in tree {
        ClosedHoldsAll(records, seen, root, tree, id, k);
      }
    }

    method ForgetFact(org: Org, owner: Sub, id: Id, fault: Fault) returns (found: bool)
      modifies `records, `points, `outbox, `audit
      ensures State() == Next(cfg, old(State()), Forget(org, owner, id, fault))
      ensures found <==> Visible(old(State()), org, owner, id)
      ensures audit == old(audit) + [Audit("memory.forget", id, if found then "succeeded" else "denied")]
    {
      ghost var before := State();
      found := id in records && records[id].org == org && records[id].owner == owner && !records[id].deleted;
      if !found {
        audit := audit + [Audit("memory.forget", id, "denied")];
        return;
      }
      var everything := scopeAll;
      var removed := {id};
      if everything {
        var seen := set x | x in records && records[x].org == org && records[x].owner == owner && !records[x].deleted;
        assert seen == VisibleIds(before, org, owner);
        removed := Walk(seen, id);
      }
      records := MarkDeleted(records, removed);
      if everything {
        EnqueueAll(removed, Delete);
      }
      audit := audit + [Audit("memory.forget", id, "succeeded")];
      if everything {
        ApplyDeletes(org, removed, fault);
      }
    }

    // --- memory-init ---

    /** Finish every forget left half done, with an audit row each. */
    method CompleteForgetsNow() returns (changed: seq<Id>)
      modifies `records, `audit
      ensures State() == CompleteForgets(old(State()))
      ensures forall i, j :: 0 <= i < j < |changed| ==> changed[i] != changed[j]
      ensures forall id :: id in changed <==> scopeAll && id in Survivors(old(records))
      ensures audit == old(audit) + seq(|changed|, i requires 0 <= i < |changed| => Audit("memory.forget", changed[i], "succeeded"))
    {
      changed := [];
      if !scopeAll {
        return;
      }
      var survivors := FindSurvivors();
      records := MarkDeleted(records, survivors);
      var todo := survivors;
      while todo != {}
        invariant todo <= survivors && records == MarkDeleted(old(records), survivors)
        invariant forall i, j :: 0 <= i < j < |changed| ==> changed[i] != changed[j]
        invariant forall id :: id in changed <==> id in survivors - todo
        invariant audit == old(audit) + seq(|changed|, i requires 0 <= i < |changed| => Audit("memory.forget", changed[i], "succeeded"))
      {
        var id :| id in todo;
        assert id !in changed;
        todo := todo - {id};
        changed := changed + [id];
        audit := audit + [Audit("memory.forget", id, "succeeded")];
      }
    }

    /** The live records under a forgotten one, round by round. */
    method FindSurvivors() returns (survivors: set<Id>)
      ensures survivors == Survivors(records)
    {
      survivors := set id | id in records && !records[id].deleted && records[id].derivedFrom.Some?
        && records[id].derivedFrom.value in records && records[records[id].derivedFrom.value].deleted;
      forall id | id in survivors ensures UnderForgotten(records, id) {
        assert Ancestor(records, records[id].derivedFrom.value, 0) == records[id].derivedFrom;
        assert ForgottenAt(records, id, 1);
      }
      var edge := survivors;
      ghost var live := set id | id in records && !records[id].deleted;
      while edge != {}
        invariant edge <= survivors <= live
        invariant forall id :: id in survivors ==> UnderForgotten(records, id)
        invariant forall id :: id in live && ParentIn(records, survivors - edge, id) ==> id in survivors
        decreases live - survivors, edge
      {
        var more := set id | id in records && !records[id].deleted && id !in survivors
          && records[id].derivedFrom.Some? && records[id].derivedFrom.value in edge;
        forall id | id in more ensures UnderForgotten(records, id) {
          var k: nat :| k > 0 && ForgottenAt(records, records[id].derivedFrom.value, k);
          assert ForgottenAt(records, id, k + 1);
        }
        if more != {} {
          var id :| id in more;
          assert id in live - survivors && id !in live - (survivors + more);
        }
        survivors, edge := survivors + more, more;
      }
      forall id, k: nat | id in live && k > 0 && ForgottenAt(records, id, k) ensures id in survivors {
        ClosedHoldsSurvivors(records, survivors, id, k);
      }
    }

    // --- memory-init and reconcile, the vector half ---

    /** One page of the store's scroll: up to `limit` points from `offset` on, in id order, and where the next begins. */
    method ScrollPage(c: Collection, offset: Id, limit: nat) returns (page: map<Id, Point>, next: Option<Id>)
      requires limit > 0
      ensures page == Between(PointsIn(State(), c), offset, next)
      ensures next.Some? ==> exists id :: id in page
      ensures |page| <= limit
    {
      var all := if c in points then points[c] else map[];
      var taken, rest := {}, set id | id in all && offset <= id;
      while |taken| < limit && rest != {}
        invariant rest <= all.Keys && taken <= all.Keys && taken !! rest
        invariant forall id :: id in all && offset <= id <==> id in taken || id in rest
        invariant forall id, x :: id in taken && x in rest ==> id < x
        invariant |taken| <= limit
        decreases rest
      {
        var id := Least(rest);
        taken, rest := taken + {id}, rest - {id};
      }
      page := map id | id in taken :: all[id];
      assert page.Keys == taken;
      if rest == {} {
        next := None;
      } else {
        var first := Least(rest);
        next := Some(first);
        var id :| id in taken;
      }
    }

    method Least(ids: set<Id>) returns (least: Id)
      requires ids != {}
      ensures least in ids && forall id :: id in ids ==> least <= id
    {
      least :| least in ids;
      var todo := ids;
      while todo != {}
        invariant todo <= ids && least in ids
        invariant forall id :: id in ids && id !in todo ==> least <= id
      {
        var id :| id in todo;
        if id < least {
          least := id;
        }
        todo := todo - {id};
      }
    }

    /** Every point of a collection, page by page until the store names no next page. */
    method AllPoints(c: Collection) returns (found: map<Id, Point>)
      ensures found == PointsIn(State(), c)
    {
      found := map[];
      ghost var all := PointsIn(State(), c);
      var offset: Option<Id> := Some(0);
      BetweenJoins(all, 0, Some(0));
      while offset.Some?
        invariant found == Between(all, 0, offset)
        decreases offset.Some?, Left(all, offset)
      {
        var page, next := ScrollPage(c, offset.value, 256);
        ProgressMade(all, offset.value, next);
        BetweenJoins(all, offset.value, next);
        found := found + page;
        offset := next;
      }
    }

    method FillOne(c: Collection, id: Id, existing: map<Id, Point>, ghost before: Store, ghost todo: set<Id>)
      requires id in records && id in todo
      requires before == State().(points := before.points) && existing == PointsIn(before, c)
      requires points == before.points[c := FilledBut(cfg, before, c, todo)]
      modifies `points
      ensures points == before.points[c := FilledBut(cfg, before, c, todo - {id})]
    {
      FilledButStep(cfg, before, c, todo, id);
      var r := records[id];
      if !r.deleted && (c == SHARED || c == TenantCollection(SlugText(cfg, r.org))) && id !in existing {
        var held: map<Id, Point> := points[c];
        held := held[id := PointOf(r, c, r.hash)];
        points := points[c := held];
      }
    }

    /** Every live record gets the points it lacks; nothing is overwritten. */
    method FillCollection(c: Collection)
      modifies `points
      ensures State() == old(State()).(points := old(points)[c := Filled(cfg, old(State()), c)])
    {
      var existing := AllPoints(c);
      ghost var before := State();
      var todo := records.Keys;
      points := points[c := existing];
      FilledButEnds(cfg, before, c);
      while todo != {}
        invariant todo <= records.Keys
        invariant points == before.points[c := FilledBut(cfg, before, c, todo)]
      {
        var id :| id in todo;
        FillOne(c, id, existing, before, todo);
        todo := todo - {id};
      }
      FilledButEnds(cfg, before, c);
    }

    method SweepCollection(c: Collection)
      modifies `points
      ensures State() == old(State()).(points := old(points)[c := Swept(old(State()), c)])
    {
      var existing := AllPoints(c);
      var stale := set id | id in existing && !(id in records && !records[id].deleted);
      points := points[c := existing - stale];
      assert points[c] == Swept(old(State()), c);
    }

    method SetupPoints()
      modifies `points
      ensures State() == Setup(cfg, old(State()))
    {
      if cfg.tenants == map[] {
        return;
      }
      ghost var before := State();
      var names := Collections(cfg);
      var todo := names;
      FilledInStep(cfg, before, {}, SHARED);
      assert names - todo == {};
      while todo != {}
        invariant todo <= names && State() == before.(points := FilledIn(cfg, before, names - todo))
      {
        var c :| c in todo;
        FilledInStep(cfg, before, names - todo, c);
        FilledLater(cfg, before, names - todo, c);
        FillCollection(c);
        assert names - (todo - {c}) == (names - todo) + {c};
        todo := todo - {c};
      }
      assert names - todo == names;
      assert State() == WriteMissing(cfg, before);
      RemoveStale();
    }

    method RemoveStale()
      modifies `points
      ensures State() == RemoveForgotten(cfg, old(State()))
    {
      if !scopeAll {
        return;
      }
      ghost var before := State();
      var names := Collections(cfg);
      var todo := names;
      SweptInStep(before, {}, SHARED);
      assert names - todo == {};
      while todo != {}
        invariant todo <= names && State() == before.(points := SweptIn(before, names - todo))
      {
        var c :| c in todo;
        SweptInStep(before, names - todo, c);
        SweptLater(before, names - todo, c);
        SweepCollection(c);
        assert names - (todo - {c}) == (names - todo) + {c};
        todo := todo - {c};
      }
      assert names - todo == names;
      assert State() == RemoveForgotten(cfg, before);
    }

    method RunInit() returns (changed: seq<Id>)
      modifies this
      ensures State() == Next(cfg, old(State()), FullInit)
    {
      changed := CompleteForgetsNow();
      SetupPoints();
    }

    /** Report every disagreement, naming the record and the collection. Repairs nothing. */
    method Reconcile() returns (problems: seq<Problem>)
      ensures forall p :: p in problems <==> Disagrees(cfg, State(), p.collection, p.id, p.kind)
      ensures problems == [] <==> Clean(cfg, State())
    {
      problems := [];
      var todo := Collections(cfg);
      while todo != {}
        invariant todo <= Collections(cfg)
        invariant forall p :: p in problems <==>
          p.collection !in todo && Disagrees(cfg, State(), p.collection, p.id, p.kind)
      {
        var c :| c in todo;
        var found := CompareCollection(c);
        todo := todo - {c};
        problems := problems + found;
      }
      if problems != [] {
        assert problems[0] in problems;
      }
      assert forall c, id, kind :: Disagrees(cfg, State(), c, id, kind) ==> Problem(c, id, kind) in problems;
    }

    method CompareCollection(c: Collection) returns (problems: seq<Problem>)
      requires c in Collections(cfg)
      ensures forall p :: p in problems <==> p.collection == c && Disagrees(cfg, State(), c, p.id, p.kind)
    {
      problems := [];
      var held := AllPoints(c);
      var todo := records.Keys;
      while todo != {}
        invariant todo <= records.Keys
        invariant forall p :: p in problems <==>
          p.collection == c && p.id in records && p.id !in todo && Disagrees(cfg, State(), c, p.id, p.kind)
      {
        var id :| id in todo;
        var r := records[id];
        if c == SHARED || c == TenantCollection(SlugText(cfg, r.org)) {
          if r.deleted {
            if id in held {
              problems := problems + [Problem(c, id, ForgottenPoint)];
            }
          } else if id !in held {
            problems := problems + [Problem(c, id, NoPoint)];
          } else if held[id].hash != r.hash {
            problems := problems + [Problem(c, id, HashDiffers)];
          }
        }
        todo := todo - {id};
      }
      var others := held.Keys;
      while others != {}
        invariant others <= held.Keys
        invariant forall p :: p in problems <==>
          p.collection == c && (p.id in records || (p.id in held && p.id !in others))
          && Disagrees(cfg, State(), c, p.id, p.kind)
      {
        var id :| id in others;
        if id !in records {
          problems := problems + [Problem(c, id, NoRecord)];
        }
        others := others - {id};
      }
    }
  }

  function Between(all: map<Id, Point>, low: Id, high: Option<Id>): map<Id, Point> {
    map id | id in all && low <= id && (high.Some? ==> id < high.value) :: all[id]
  }

  function Left(all: map<Id, Point>, offset: Option<Id>): set<Id> {
    set id | id in all && offset.Some? && offset.value <= id
  }

  lemma ProgressMade(all: map<Id, Point>, offset: Id, next: Option<Id>)
    requires next.Some? ==> exists id :: id in Between(all, offset, next)
    ensures next.Some? ==> Left(all, next) < Left(all, Some(offset)) && offset <= next.value
  {
    if next.Some? {
      var id :| id in Between(all, offset, next);
      assert id in Left(all, Some(offset)) && id !in Left(all, next);
    }
  }

  lemma BetweenJoins(all: map<Id, Point>, middle: Id, high: Option<Id>)
    requires high.Some? ==> middle <= high.value
    ensures Between(all, 0, Some(middle)) + Between(all, middle, high) == Between(all, 0, high)
    ensures Between(all, 0, None) == all
  {
  }

  /** A collection once only the records in `todo` are left to look at. */
  function FilledBut(cfg: Config, s: Store, c: Collection, todo: set<Id>): map<Id, Point> {
    map id | id in PointsIn(s, c).Keys + s.records.Keys
      && (id in PointsIn(s, c) || (id !in todo && Missing(cfg, s, c, id))) ::
      if id in PointsIn(s, c) then PointsIn(s, c)[id] else PointOf(s.records[id], c, s.records[id].hash)
  }

  lemma FilledButStep(cfg: Config, s: Store, c: Collection, todo: set<Id>, id: Id)
    requires id in s.records && id in todo
    ensures FilledBut(cfg, s, c, todo - {id})
         == if Missing(cfg, s, c, id) then FilledBut(cfg, s, c, todo)[id := PointOf(s.records[id], c, s.records[id].hash)]
            else FilledBut(cfg, s, c, todo)
  {
  }

  lemma FilledButEnds(cfg: Config, s: Store, c: Collection)
    ensures FilledBut(cfg, s, c, s.records.Keys) == PointsIn(s, c)
    ensures FilledBut(cfg, s, c, {}) == Filled(cfg, s, c)
  {
  }

  lemma FilledInStep(cfg: Config, s: Store, done: set<Collection>, c: Collection)
    requires c !in done
    ensures FilledIn(cfg, s, done + {c}) == FilledIn(cfg, s, done)[c := Filled(cfg, s, c)]
    ensures FilledIn(cfg, s, {}) == s.points
  {
  }

  lemma FilledLater(cfg: Config, s: Store, done: set<Collection>, c: Collection)
    requires c !in done
    ensures Filled(cfg, s.(points := FilledIn(cfg, s, done)), c) == Filled(cfg, s, c)
  {
    assert PointsIn(s.(points := FilledIn(cfg, s, done)), c) == PointsIn(s, c);
  }

  lemma SweptInStep(s: Store, done: set<Collection>, c: Collection)
    requires c !in done
    ensures SweptIn(s, done + {c}) == SweptIn(s, done)[c := Swept(s, c)]
    ensures SweptIn(s, {}) == s.points
  {
  }

  lemma SweptLater(s: Store, done: set<Collection>, c: Collection)
    requires c !in done
    ensures Swept(s.(points := SweptIn(s, done)), c) == Swept(s, c)
  {
    assert PointsIn(s.(points := SweptIn(s, done)), c) == PointsIn(s, c);
  }

  lemma {:induction false} ClosedHoldsAll(records: map<Id, Record>, seen: set<Id>, root: Id, tree: set<Id>, id: Id, k: nat)
    requires root in tree && seen <= records.Keys
    requires forall x :: x in seen && records[x].derivedFrom.Some? && records[x].derivedFrom.value in tree ==> x in tree
    requires Hangs(records, seen, root, id, k)
    ensures id in tree
    decreases k
  {
    if k > 0 {
      ClosedHoldsAll(records, seen, root, tree, records[id].derivedFrom.value, k - 1);
    }
  }

  /** The record was derived from a forgotten one, or from one of `ids`. */
  predicate ParentIn(records: map<Id, Record>, ids: set<Id>, id: Id) {
    id in records && records[id].derivedFrom.Some?
    && var parent := records[id].derivedFrom.value;
       parent in ids || (parent in records && records[parent].deleted)
  }

  lemma {:induction false} ClosedHoldsSurvivors(records: map<Id, Record>, survivors: set<Id>, id: Id, k: nat)
    requires id in records && !records[id].deleted && k > 0 && ForgottenAt(records, id, k)
    requires forall x :: x in records && !records[x].deleted && ParentIn(records, survivors, x) ==> x in survivors
    ensures id in survivors
    decreases k
  {
    var parent := records[id].derivedFrom.value;
    assert ForgottenAt(records, parent, k - 1);
    if k > 1 && !records[parent].deleted {
      ClosedHoldsSurvivors(records, survivors, parent, k - 1);
    }
  }

  lemma PendingOfAppend(rows: seq<Row>, row: Row)
    ensures PendingOf(rows + [row]) == PendingOf(rows) + (if row.pending then {Todo(row.id, row.op)} else {})
  {
  }
}
