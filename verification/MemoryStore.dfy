/**
 Long-term memory as two stores: records in the database, points in the vector store, and the
 outbox that links them.

 A request commits one transaction and then applies its own outbox rows. The apply phase may stop
 at the embedder, at either layout or at marking, and a call that failed may have landed anyway.
 Requests are serial. `Next` is what each request, setting change and repair step does.
 */
module MemoryStore {
  import opened Wrappers

  type Org = string
  type Sub = string
  type Id = nat
  type Collection = string

  datatype Status = Unconfirmed | Confirmed

  datatype Channel = ByAgent | ByRuntime | BySeed

  datatype Record = Record(org: Org, owner: Sub, content: string, hash: string, channel: Channel, status: Status,
                           auto: bool, derivedFrom: Option<Id>, deleted: bool)

  datatype Op = Upsert | Delete

  /** A pending outbox row, as far as anything reads it: which record, and what is still to be done. */
  datatype Todo = Todo(id: Id, op: Op)

  datatype Point = Point(owner: Sub, channel: Channel, status: Status, hash: string, content: string, org: Option<Org>)

  datatype Store = Store(records: map<Id, Record>, pending: set<Todo>, points: map<Collection, map<Id, Point>>,
                         scopeAll: bool, autoConfirm: bool)

  /** The organisations with a collection of their own, and the content hash. */
  datatype Config = Config(tenants: map<Org, string>, hash: string -> string)

  // ---------------------------------------------------------------------------------------------
  // Collections
  // ---------------------------------------------------------------------------------------------

  const SHARED: Collection := TenantCollection("shared")

  function TenantCollection(slug: string): Collection {
    "memories__" + slug
  }

  lemma TenantCollectionInjective(a: string, b: string)
    ensures TenantCollection(a) == TenantCollection(b) <==> a == b
  {
    assert TenantCollection(a)[10..] == a && TenantCollection(b)[10..] == b;
  }

  function Collections(cfg: Config): set<Collection> {
    {SHARED} + set org | org in cfg.tenants :: TenantCollection(cfg.tenants[org])
  }

  /** Python writes the missing slug of an unknown organisation as None. */
  function SlugText(cfg: Config, org: Org): string {
    if org in cfg.tenants then cfg.tenants[org] else "None"
  }

  predicate Belongs(cfg: Config, c: Collection, org: Org) {
    c == SHARED || c == TenantCollection(SlugText(cfg, org))
  }

  function PointsIn(s: Store, c: Collection): map<Id, Point> {
    if c in s.points then s.points[c] else map[]
  }

  function At(s: Store, c: Collection, id: Id): Option<Point> {
    if id in PointsIn(s, c) then Some(PointsIn(s, c)[id]) else None
  }

  predicate Live(s: Store, id: Id) {
    id in s.records && !s.records[id].deleted
  }

  predicate Visible(s: Store, org: Org, owner: Sub, id: Id) {
    Live(s, id) && s.records[id].org == org && s.records[id].owner == owner
  }

  function VisibleIds(s: Store, org: Org, owner: Sub): set<Id> {
    set id | id in s.records && Visible(s, org, owner, id)
  }

  // ---------------------------------------------------------------------------------------------
  // The derived_from forest
  // ---------------------------------------------------------------------------------------------

  /** The record k steps above `id`. */
  function Ancestor(records: map<Id, Record>, id: Id, k: nat): Option<Id>
    decreases k
  {
    if id !in records then None
    else if k == 0 then Some(id)
    else
      match records[id].derivedFrom
      case None => None
      case Some(parent) => Ancestor(records, parent, k - 1)
  }

  /** `id` hangs from `root` by a chain of records that are all in `seen`. */
  predicate Hangs(records: map<Id, Record>, seen: set<Id>, root: Id, id: Id, k: nat)
    decreases k
  {
    id in records && id in seen
    && if k == 0 then id == root
       else records[id].derivedFrom.Some? && Hangs(records, seen, root, records[id].derivedFrom.value, k - 1)
  }

  ghost predicate InTree(records: map<Id, Record>, seen: set<Id>, root: Id, id: Id) {
    exists k: nat :: Hangs(records, seen, root, id, k)
  }

  /** What the recursive query over the rows in `seen` returns. */
  ghost function Tree(records: map<Id, Record>, seen: set<Id>, root: Id): set<Id> {
    set id | id in records && InTree(records, seen, root, id)
  }

  ghost predicate UnderForgotten(records: map<Id, Record>, id: Id) {
    exists k: nat :: k > 0 && ForgottenAt(records, id, k)
  }

  predicate ForgottenAt(records: map<Id, Record>, id: Id, k: nat) {
    var a := Ancestor(records, id, k);
    a.Some? && a.value in records && records[a.value].deleted
  }

  /** The live records that outlived something they were derived from. */
  ghost function Survivors(records: map<Id, Record>): set<Id> {
    set id | id in records && !records[id].deleted && UnderForgotten(records, id)
  }

  function MarkDeleted(records: map<Id, Record>, gone: set<Id>): map<Id, Record> {
    map id | id in records :: if id in gone then records[id].(deleted := true) else records[id]
  }

  // ---------------------------------------------------------------------------------------------
  // Applying outbox rows
  // ---------------------------------------------------------------------------------------------

  datatype Fault =
    | NoFault
    | NotConfigured
    | AtEmbedder
    | AtPerTenant(landed: bool)
    | AtShared(landed: bool)
    | AtMarking(landed: bool)

  function PointOf(r: Record, c: Collection, hash: string): Point {
    Point(r.owner, r.channel, r.status, hash, r.content, if c == SHARED then Some(r.org) else None)
  }

  function Put(s: Store, c: Collection, id: Id, p: Point): Store {
    s.(points := s.points[c := PointsIn(s, c)[id := p]])
  }

  function Drop(s: Store, c: Collection, ids: set<Id>): Store {
    s.(points := s.points[c := PointsIn(s, c) - ids])
  }

  function Mark(s: Store, ids: set<Id>, op: Op): Store {
    s.(pending := s.pending - set id | id in ids :: Todo(id, op))
  }

  /** How far an apply phase got: a failed call may have landed, and a failed mark may have committed. */
  datatype Progress = Nothing | First | Both | Marked

  function UpsertProgress(cfg: Config, org: Org, fault: Fault): Progress {
    if fault.AtEmbedder? then Nothing else DeleteProgress(cfg, org, fault)
  }

  /** An organisation without a collection is refused before either layout is written. */
  function DeleteProgress(cfg: Config, org: Org, fault: Fault): Progress {
    if fault.NotConfigured? || org !in cfg.tenants then Nothing
    else
      match fault
      case AtPerTenant(landed) => if landed then First else Nothing
      case AtShared(landed) => if landed then Both else First
      case AtMarking(landed) => if landed then Marked else Both
      case _ => Marked
  }

  /** The per-tenant layout first, then the shared one, then the mark. */
  function ApplyUpsert(cfg: Config, s: Store, id: Id, r: Record, fault: Fault): Store {
    var p := UpsertProgress(cfg, r.org, fault);
    if p == Marked then Mark(PutUpTo(cfg, s, id, r, p), {id}, Upsert) else PutUpTo(cfg, s, id, r, p)
  }

  function PutUpTo(cfg: Config, s: Store, id: Id, r: Record, p: Progress): Store
    requires p != Nothing ==> r.org in cfg.tenants
  {
    match p
    case Nothing => s
    case First => PutFirst(cfg, s, id, r)
    case _ => PutBoth(cfg, s, id, r)
  }

  function PutFirst(cfg: Config, s: Store, id: Id, r: Record): Store
    requires r.org in cfg.tenants
  {
    Put(s, TenantCollection(cfg.tenants[r.org]), id, NewPoint(cfg, r, None))
  }

  function PutBoth(cfg: Config, s: Store, id: Id, r: Record): Store
    requires r.org in cfg.tenants
  {
    Put(PutFirst(cfg, s, id, r), SHARED, id, NewPoint(cfg, r, Some(r.org)))
  }

  function NewPoint(cfg: Config, r: Record, org: Option<Org>): Point {
    Point(r.owner, r.channel, r.status, cfg.hash(r.content), r.content, org)
  }

  function ApplyDelete(cfg: Config, s: Store, org: Org, ids: set<Id>, fault: Fault): Store {
    var p := DeleteProgress(cfg, org, fault);
    if p == Marked then Mark(DropUpTo(cfg, s, org, ids, p), ids, Delete) else DropUpTo(cfg, s, org, ids, p)
  }

  function DropUpTo(cfg: Config, s: Store, org: Org, ids: set<Id>, p: Progress): Store
    requires p != Nothing ==> org in cfg.tenants
  {
    match p
    case Nothing => s
    case First => Drop(s, TenantCollection(cfg.tenants[org]), ids)
    case _ => DropBoth(cfg, s, org, ids)
  }

  function DropBoth(cfg: Config, s: Store, org: Org, ids: set<Id>): Store
    requires org in cfg.tenants
  {
    Drop(Drop(s, TenantCollection(cfg.tenants[org]), ids), SHARED, ids)
  }

  // ---------------------------------------------------------------------------------------------
  // Requests
  // ---------------------------------------------------------------------------------------------

  function Prefix(text: string, n: nat): string {
    if |text| <= n then text else text[..n]
  }

  function SummaryOf(text: string): string {
    "Summary of an earlier memory: " + (if |text| <= 160 then text else Prefix(text, 157) + "...")
  }

  /** Commit a new or changed record together with its outbox row. */
  function Commit(s: Store, id: Id, r: Record): Store {
    s.(records := s.records[id := r], pending := s.pending + {Todo(id, Upsert)})
  }

  function Write(cfg: Config, s: Store, id: Id, r: Record, fault: Fault): Store {
    ApplyUpsert(cfg, Commit(s, id, r), id, r, fault)
  }

  /** What the agent writes is unconfirmed, unless the deployment confirms it by itself. */
  function NewMemory(cfg: Config, s: Store, org: Org, owner: Sub, content: string): Record {
    Record(org, owner, content, cfg.hash(content), ByAgent, if s.autoConfirm then Confirmed else Unconfirmed,
           s.autoConfirm, None, false)
  }

  function NewSummary(cfg: Config, s: Store, org: Org, owner: Sub, source: Id): Record
    requires source in s.records
  {
    var content := SummaryOf(s.records[source].content);
    Record(org, owner, content, cfg.hash(content), ByRuntime, s.records[source].status, false, Some(source), false)
  }

  function DoRemember(cfg: Config, s: Store, org: Org, owner: Sub, id: Id, content: string, secret: bool, fault: Fault)
    : Store
  {
    if secret then s
    else
      Write(cfg, s, id, NewMemory(cfg, s, org, owner, content), fault)
  }

  function DoConfirm(cfg: Config, s: Store, org: Org, owner: Sub, id: Id, fault: Fault): Store {
    if Visible(s, org, owner, id) && s.records[id].status == Unconfirmed then
      Write(cfg, s, id, s.records[id].(status := Confirmed, auto := false), fault)
    else s
  }

  function DoSummarise(cfg: Config, s: Store, org: Org, owner: Sub, source: Id, id: Id, fault: Fault): Store {
    if Visible(s, org, owner, source) then Write(cfg, s, id, NewSummary(cfg, s, org, owner, source), fault) else s
  }

  function Bury(s: Store, gone: set<Id>): Store {
    s.(records := MarkDeleted(s.records, gone), pending := s.pending + set id | id in gone :: Todo(id, Delete))
  }

  function Erase(cfg: Config, s: Store, org: Org, gone: set<Id>, fault: Fault): Store {
    ApplyDelete(cfg, Bury(s, gone), org, gone, fault)
  }

  /** Forgetting in the database alone, as armed forgetting and the repair both do. */
  function Hide(s: Store, gone: set<Id>): Store {
    s.(records := MarkDeleted(s.records, gone))
  }

  ghost function DoForget(cfg: Config, s: Store, org: Org, owner: Sub, id: Id, fault: Fault): Store {
    if !Visible(s, org, owner, id) then s
    else if s.scopeAll then
      var gone := Tree(s.records, VisibleIds(s, org, owner), id);
      Erase(cfg, s, org, gone, fault)
    else Hide(s, {id})
  }

  // ---------------------------------------------------------------------------------------------
  // Repair
  // ---------------------------------------------------------------------------------------------

  ghost function CompleteForgets(s: Store): Store {
    if s.scopeAll then Hide(s, Survivors(s.records)) else s
  }

  predicate Missing(cfg: Config, s: Store, c: Collection, id: Id) {
    Live(s, id) && Belongs(cfg, c, s.records[id].org) && id !in PointsIn(s, c)
  }

  /** One collection, with the points its live records lack. */
  function Filled(cfg: Config, s: Store, c: Collection): map<Id, Point> {
    map id | id in PointsIn(s, c).Keys + s.records.Keys && (id in PointsIn(s, c) || Missing(cfg, s, c, id)) ::
      if id in PointsIn(s, c) then PointsIn(s, c)[id] else PointOf(s.records[id], c, s.records[id].hash)
  }

  function FilledIn(cfg: Config, s: Store, names: set<Collection>): map<Collection, map<Id, Point>> {
    map c | c in s.points.Keys + names :: if c in names then Filled(cfg, s, c) else s.points[c]
  }

  function WriteMissing(cfg: Config, s: Store): Store {
    s.(points := FilledIn(cfg, s, Collections(cfg)))
  }

  function Swept(s: Store, c: Collection): map<Id, Point> {
    map id | id in PointsIn(s, c) && Live(s, id) :: PointsIn(s, c)[id]
  }

  function SweptIn(s: Store, names: set<Collection>): map<Collection, map<Id, Point>> {
    map c | c in s.points.Keys + names :: if c in names then Swept(s, c) else s.points[c]
  }

  function RemoveForgotten(cfg: Config, s: Store): Store {
    if s.scopeAll then s.(points := SweptIn(s, Collections(cfg))) else s
  }

  function Setup(cfg: Config, s: Store): Store {
    if cfg.tenants == map[] then s else RemoveForgotten(cfg, WriteMissing(cfg, s))
  }

  /** memory-init without an error: the database half, then the vector half. */
  ghost function Init(cfg: Config, s: Store): Store {
    Setup(cfg, CompleteForgets(s))
  }

  // ---------------------------------------------------------------------------------------------
  // Runs
  // ---------------------------------------------------------------------------------------------

  datatype Event =
    | Remember(org: Org, owner: Sub, id: Id, content: string, secret: bool, fault: Fault)
    | Confirm(org: Org, owner: Sub, id: Id, fault: Fault)
    | Summarise(org: Org, owner: Sub, source: Id, id: Id, fault: Fault)
    | Forget(org: Org, owner: Sub, id: Id, fault: Fault)
    | SetScope(all: bool)
    | SetAutoConfirm(on: bool)
    | RevokeAuto
    | FullInit
    | InitForgets               // an init that stopped after its database half
    | InitWrite(c: Collection, id: Id)  // one point written by an init that stopped later
    | InitSweep(c: Collection)  // one collection swept by an init that stopped later

  function Revoked(records: map<Id, Record>): map<Id, Record> {
    map id | id in records ::
      if records[id].auto && !records[id].deleted then records[id].(status := Unconfirmed, auto := false)
      else records[id]
  }

  ghost function Next(cfg: Config, s: Store, e: Event): Store {
    match e
    case Remember(org, owner, id, content, secret, fault) =>
      if id in s.records then s else DoRemember(cfg, s, org, owner, id, content, secret, fault)
    case Confirm(org, owner, id, fault) => DoConfirm(cfg, s, org, owner, id, fault)
    case Summarise(org, owner, source, id, fault) =>
      if id in s.records then s else DoSummarise(cfg, s, org, owner, source, id, fault)
    case Forget(org, owner, id, fault) => DoForget(cfg, s, org, owner, id, fault)
    case SetScope(all) => s.(scopeAll := all)
    case SetAutoConfirm(on) => s.(autoConfirm := on)
    case RevokeAuto => s.(records := Revoked(s.records))
    case FullInit => Init(cfg, s)
    case InitForgets => CompleteForgets(s)
    case InitWrite(c, id) =>
      if c in Collections(cfg) && cfg.tenants != map[] && Missing(cfg, s, c, id)
      then Put(s, c, id, PointOf(s.records[id], c, s.records[id].hash))
      else s
    case InitSweep(c) =>
      if c in Collections(cfg) && cfg.tenants != map[] && s.scopeAll then s.(points := s.points[c := Swept(s, c)])
      else s
  }

  ghost function After(cfg: Config, s: Store, events: seq<Event>): Store
    decreases |events|
  {
    if events == [] then s else After(cfg, Next(cfg, s, events[0]), events[1..])
  }

  predicate SeedsOk(cfg: Config, seeds: map<Id, Record>) {
    forall id :: id in seeds ==>
      !seeds[id].deleted && seeds[id].derivedFrom.None? && seeds[id].hash == cfg.hash(seeds[id].content)
  }

  /** The service starts once memory-init has run on the seeded database. */
  ghost function Start(cfg: Config, seeds: map<Id, Record>): Store {
    Init(cfg, Store(seeds, {}, map[], true, false))
  }

  // ---------------------------------------------------------------------------------------------
  // What every run keeps
  // ---------------------------------------------------------------------------------------------

  /** Content is never updated, so every hash is the hash of what it stands beside. */
  predicate RecordOk(cfg: Config, s: Store, id: Id) {
    id in s.records ==>
      && s.records[id].hash == cfg.hash(s.records[id].content)
      && (s.records[id].derivedFrom.Some? ==>
            var p := s.records[id].derivedFrom.value;
            p in s.records && s.records[p].org == s.records[id].org && s.records[p].owner == s.records[id].owner)
  }

  predicate PointOk(cfg: Config, s: Store, c: Collection, id: Id) {
    At(s, c, id).Some? ==>
      && id in s.records
      && At(s, c, id).value.hash == s.records[id].hash
      && At(s, c, id).value.content == s.records[id].content
      && At(s, c, id).value.owner == s.records[id].owner
      && At(s, c, id).value.channel == s.records[id].channel
      && (s.records[id].auto ==> At(s, c, id).value.status == s.records[id].status)
      && Belongs(cfg, c, s.records[id].org)
  }

  predicate HasPoint(cfg: Config, s: Store, c: Collection, id: Id) {
    Live(s, id) && c in Collections(cfg) && Belongs(cfg, c, s.records[id].org) ==>
      At(s, c, id).Some? || Todo(id, Upsert) in s.pending
  }

  /** Kept by every run. */
  ghost predicate Core(cfg: Config, s: Store) {
    && (forall id :: RecordOk(cfg, s, id))
    && (forall c, id :: PointOk(cfg, s, c, id))
    && (forall c, id :: HasPoint(cfg, s, c, id))
  }

  predicate GoneOrPending(s: Store, c: Collection, id: Id) {
    id in s.records && s.records[id].deleted && At(s, c, id).Some? ==> Todo(id, Delete) in s.pending
  }

  predicate ParentLive(s: Store, id: Id) {
    Live(s, id) && s.records[id].derivedFrom.Some? ==> Live(s, s.records[id].derivedFrom.value)
  }

  /** Kept by every run in which forgetting is always set to be complete. */
  ghost predicate Thorough(s: Store) {
    && s.scopeAll
    && (forall c, id :: GoneOrPending(s, c, id))
    && (forall id :: ParentLive(s, id))
  }

  predicate SamePoint(a: Option<Point>, b: Option<Point>) {
    if a.Some? && b.Some? then a.value.(org := None) == b.value.(org := None) else a.None? && b.None?
  }

  predicate Agrees(cfg: Config, s: Store, all: bool, id: Id) {
    id in s.records && (all || Live(s, id)) && s.records[id].org in cfg.tenants
    && Todo(id, Upsert) !in s.pending && Todo(id, Delete) !in s.pending ==>
      SamePoint(At(s, TenantCollection(cfg.tenants[s.records[id].org]), id), At(s, SHARED, id))
  }

  predicate Labelled(s: Store, id: Id) {
    At(s, SHARED, id).Some? && id in s.records ==> At(s, SHARED, id).value.org == Some(s.records[id].org)
  }

  /**
   The two layouts hold the same for every record nothing is pending for. Of live records (`all`
   false) every run keeps this; of forgotten ones every run in which no init stops in its sweep.
   */
  ghost predicate LayoutsAgree(cfg: Config, s: Store, all: bool) {
    forall id :: Agrees(cfg, s, all, id) && Labelled(s, id)
  }

  // --- an apply phase touches only the points and rows it is about ---

  lemma PutAt(s: Store, c: Collection, id: Id, p: Point, d: Collection, x: Id)
    ensures At(Put(s, c, id, p), d, x) == if d == c && x == id then Some(p) else At(s, d, x)
  {
  }

  lemma DropAt(s: Store, c: Collection, ids: set<Id>, d: Collection, x: Id)
    ensures At(Drop(s, c, ids), d, x) == if d == c && x in ids then None else At(s, d, x)
  {
  }

  predicate OnlyPoints(s: Store, t: Store) {
    t == s.(points := t.points, pending := t.pending)
  }

  lemma UpsertAt(cfg: Config, s: Store, id: Id, r: Record, fault: Fault, c: Collection, x: Id)
    ensures var t := ApplyUpsert(cfg, s, id, r, fault);
      var p := UpsertProgress(cfg, r.org, fault);
      && OnlyPoints(s, t)
      && At(t, c, x) ==
           if x == id && p in {Both, Marked} && c == SHARED then
             Some(Point(r.owner, r.channel, r.status, cfg.hash(r.content), r.content, Some(r.org)))
           else if x == id && p != Nothing && c == TenantCollection(cfg.tenants[r.org]) then
             Some(Point(r.owner, r.channel, r.status, cfg.hash(r.content), r.content, None))
           else At(s, c, x)
  {
    if r.org in cfg.tenants {
      var d := TenantCollection(cfg.tenants[r.org]);
      PutAt(s, d, id, NewPoint(cfg, r, None), c, x);
      PutAt(PutFirst(cfg, s, id, r), SHARED, id, NewPoint(cfg, r, Some(r.org)), c, x);
    }
  }

  lemma DeleteAt(cfg: Config, s: Store, org: Org, ids: set<Id>, fault: Fault, c: Collection, x: Id)
    ensures var t := ApplyDelete(cfg, s, org, ids, fault);
      var p := DeleteProgress(cfg, org, fault);
      && OnlyPoints(s, t)
      && At(t, c, x) ==
           if x in ids && p != Nothing && (c == TenantCollection(cfg.tenants[org]) || (p != First && c == SHARED))
           then None else At(s, c, x)
  {
    if org in cfg.tenants {
      var d := TenantCollection(cfg.tenants[org]);
      DropAt(s, d, ids, c, x);
      DropAt(Drop(s, d, ids), SHARED, ids, c, x);
    }
  }

  // --- writes ---

  /** A new record, or a visible one with another status. */
  predicate Writes(cfg: Config, s: Store, id: Id, r: Record) {
    && !r.deleted
    && r.hash == cfg.hash(r.content)
    && (if id in s.records then
          var q := s.records[id];
          !q.deleted && r == q.(status := r.status, auto := false)
        else
          r.derivedFrom.Some? ==> Visible(s, r.org, r.owner, r.derivedFrom.value))
  }

  lemma WritePending(cfg: Config, s: Store, id: Id, r: Record, fault: Fault, todo: Todo)
    ensures var t := Write(cfg, s, id, r, fault);
      todo in t.pending <==>
        if todo == Todo(id, Upsert) then UpsertProgress(cfg, r.org, fault) != Marked else todo in s.pending
  {
  }

  lemma WriteKeepsCore(cfg: Config, s: Store, id: Id, r: Record, fault: Fault)
    requires Core(cfg, s) && Writes(cfg, s, id, r)
    ensures Core(cfg, Write(cfg, s, id, r, fault))
  {
    var t := Write(cfg, s, id, r, fault);
    forall x ensures RecordOk(cfg, t, x) {
      UpsertAt(cfg, Commit(s, id, r), id, r, fault, SHARED, x);
      assert RecordOk(cfg, s, x) && RecordOk(cfg, s, id);
    }
    forall c, x ensures PointOk(cfg, t, c, x) && HasPoint(cfg, t, c, x) {
      UpsertAt(cfg, Commit(s, id, r), id, r, fault, c, x);
      WritePending(cfg, s, id, r, fault, Todo(x, Upsert));
      assert PointOk(cfg, s, c, x) && HasPoint(cfg, s, c, x) && RecordOk(cfg, s, id);
    }
  }

  lemma WriteKeepsThorough(cfg: Config, s: Store, id: Id, r: Record, fault: Fault)
    requires Core(cfg, s) && Thorough(s) && Writes(cfg, s, id, r)
    ensures Thorough(Write(cfg, s, id, r, fault))
  {
    var t := Write(cfg, s, id, r, fault);
    UpsertAt(cfg, Commit(s, id, r), id, r, fault, SHARED, id);
    forall c, x ensures GoneOrPending(t, c, x) {
      UpsertAt(cfg, Commit(s, id, r), id, r, fault, c, x);
      WritePending(cfg, s, id, r, fault, Todo(x, Delete));
      assert GoneOrPending(s, c, x);
    }
    forall x ensures ParentLive(t, x) {
      assert ParentLive(s, x);
    }
  }

  lemma WriteKeepsAgreement(all: bool, cfg: Config, s: Store, id: Id, r: Record, fault: Fault)
    requires Core(cfg, s) && LayoutsAgree(cfg, s, all) && Writes(cfg, s, id, r)
    requires forall org :: org in cfg.tenants ==> cfg.tenants[org] != "shared"
    ensures LayoutsAgree(cfg, Write(cfg, s, id, r, fault), all)
  {
    var t := Write(cfg, s, id, r, fault);
    if r.org in cfg.tenants {
      TenantCollectionInjective(cfg.tenants[r.org], "shared");
    }
    forall x ensures Agrees(cfg, t, all, x) && Labelled(t, x) {
      UpsertAt(cfg, Commit(s, id, r), id, r, fault, SHARED, x);
      assert Agrees(cfg, s, all, x) && Labelled(s, x) && PointOk(cfg, s, SHARED, x);
      if x in t.records && t.records[x].org in cfg.tenants {
        var c := TenantCollection(cfg.tenants[t.records[x].org]);
        TenantCollectionInjective(cfg.tenants[t.records[x].org], "shared");
        UpsertAt(cfg, Commit(s, id, r), id, r, fault, c, x);
        WritePending(cfg, s, id, r, fault, Todo(x, Upsert));
        WritePending(cfg, s, id, r, fault, Todo(x, Delete));
      }
    }
  }

  // --- forgetting ---

  /** Records are buried; what is deleted now was deleted before or is buried, nothing else changes. */
  lemma BuryAt(s: Store, gone: set<Id>, id: Id)
    ensures var t := Bury(s, gone);
      && t.points == s.points && t.scopeAll == s.scopeAll
      && (id in t.records <==> id in s.records)
      && (id in s.records ==> t.records[id] == s.records[id].(deleted := s.records[id].deleted || id in gone))
      && (Todo(id, Upsert) in t.pending <==> Todo(id, Upsert) in s.pending)
      && (Todo(id, Delete) in t.pending <==> Todo(id, Delete) in s.pending || id in gone)
  {
  }

  lemma ErasePending(cfg: Config, s: Store, org: Org, gone: set<Id>, fault: Fault, id: Id)
    ensures var t := Erase(cfg, s, org, gone, fault);
      && (Todo(id, Upsert) in t.pending <==> Todo(id, Upsert) in s.pending)
      && (Todo(id, Delete) in t.pending <==>
            if id in gone then DeleteProgress(cfg, org, fault) != Marked else Todo(id, Delete) in s.pending)
  {
    BuryAt(s, gone, id);
  }

  lemma EraseKeepsCore(cfg: Config, s: Store, org: Org, gone: set<Id>, fault: Fault)
    requires Core(cfg, s)
    ensures Core(cfg, Erase(cfg, s, org, gone, fault))
  {
    var t := Erase(cfg, s, org, gone, fault);
    forall x ensures RecordOk(cfg, t, x) {
      DeleteAt(cfg, Bury(s, gone), org, gone, fault, SHARED, x);
      assert RecordOk(cfg, s, x);
    }
    forall c, x ensures PointOk(cfg, t, c, x) && HasPoint(cfg, t, c, x) {
      DeleteAt(cfg, Bury(s, gone), org, gone, fault, c, x);
      ErasePending(cfg, s, org, gone, fault, x);
      assert PointOk(cfg, s, c, x) && HasPoint(cfg, s, c, x);
    }
  }

  /** Everything live that hangs from what is forgotten is forgotten with it. */
  predicate Downward(s: Store, gone: set<Id>, id: Id) {
    Live(s, id) && s.records[id].derivedFrom.Some? && s.records[id].derivedFrom.value in gone ==> id in gone
  }

  lemma EraseKeepsThorough(cfg: Config, s: Store, org: Org, gone: set<Id>, fault: Fault)
    requires Core(cfg, s) && Thorough(s)
    requires forall id :: id in gone ==> id in s.records && s.records[id].org == org
    requires forall id :: Downward(s, gone, id)
    ensures Thorough(Erase(cfg, s, org, gone, fault))
  {
    var t := Erase(cfg, s, org, gone, fault);
    DeleteAt(cfg, Bury(s, gone), org, gone, fault, SHARED, 0);
    forall c, x ensures GoneOrPending(t, c, x) {
      DeleteAt(cfg, Bury(s, gone), org, gone, fault, c, x);
      ErasePending(cfg, s, org, gone, fault, x);
      assert GoneOrPending(s, c, x) && PointOk(cfg, s, c, x);
    }
    forall x ensures ParentLive(t, x) {
      assert ParentLive(s, x) && Downward(s, gone, x);
    }
  }

  lemma EraseKeepsAgreement(all: bool, cfg: Config, s: Store, org: Org, gone: set<Id>, fault: Fault)
    requires Core(cfg, s) && LayoutsAgree(cfg, s, all)
    requires forall id :: id in gone ==> id in s.records && s.records[id].org == org
    ensures LayoutsAgree(cfg, Erase(cfg, s, org, gone, fault), all)
  {
    var t := Erase(cfg, s, org, gone, fault);
    forall x ensures Agrees(cfg, t, all, x) && Labelled(t, x) {
      DeleteAt(cfg, Bury(s, gone), org, gone, fault, SHARED, x);
      ErasePending(cfg, s, org, gone, fault, x);
      assert Agrees(cfg, s, all, x) && Labelled(s, x);
      if x in s.records && s.records[x].org in cfg.tenants {
        DeleteAt(cfg, Bury(s, gone), org, gone, fault, TenantCollection(cfg.tenants[s.records[x].org]), x);
      }
    }
  }

  lemma HideKeeps(cfg: Config, s: Store, gone: set<Id>)
    requires Core(cfg, s)
    ensures Core(cfg, Hide(s, gone))
    ensures forall all :: LayoutsAgree(cfg, s, all) ==> LayoutsAgree(cfg, Hide(s, gone), all)
  {
    var t := Hide(s, gone);
    forall x ensures RecordOk(cfg, t, x) {
      assert RecordOk(cfg, s, x);
    }
    forall c, x ensures PointOk(cfg, t, c, x) && HasPoint(cfg, t, c, x) {
      assert At(t, c, x) == At(s, c, x);
      assert PointOk(cfg, s, c, x) && HasPoint(cfg, s, c, x);
    }
    forall all | LayoutsAgree(cfg, s, all) ensures LayoutsAgree(cfg, t, all) {
      forall x ensures Agrees(cfg, t, all, x) && Labelled(t, x) {
        assert Agrees(cfg, s, all, x) && Labelled(s, x);
      }
    }
  }

  /** Where every live record has a live parent, nothing live has a forgotten ancestor. */
  lemma {:induction false} LiveAncestors(s: Store, id: Id, k: nat)
    requires Live(s, id) && forall x :: ParentLive(s, x)
    ensures !ForgottenAt(s.records, id, k)
    decreases k
  {
    if k > 0 {
      assert ParentLive(s, id);
      if s.records[id].derivedFrom.Some? {
        LiveAncestors(s, s.records[id].derivedFrom.value, k - 1);
      }
    }
  }

  lemma NothingToComplete(s: Store)
    requires forall x :: ParentLive(s, x)
    ensures CompleteForgets(s) == s
  {
    forall id | id in s.records && !s.records[id].deleted ensures id !in Survivors(s.records) {
      forall k: nat ensures !ForgottenAt(s.records, id, k) {
        LiveAncestors(s, id, k);
      }
    }
    assert Survivors(s.records) == {};
    assert MarkDeleted(s.records, {}) == s.records;
  }

  // --- repair ---

  lemma WriteMissingAt(cfg: Config, s: Store, c: Collection, id: Id)
    ensures var t := WriteMissing(cfg, s);
      At(t, c, id) == if c in Collections(cfg) && Missing(cfg, s, c, id)
                      then Some(PointOf(s.records[id], c, s.records[id].hash)) else At(s, c, id)
  {
  }

  lemma RemoveForgottenAt(cfg: Config, s: Store, c: Collection, id: Id)
    ensures var t := RemoveForgotten(cfg, s);
      At(t, c, id) == if s.scopeAll && c in Collections(cfg) && !Live(s, id) then None else At(s, c, id)
  {
  }

  lemma SetupAt(cfg: Config, s: Store, c: Collection, id: Id)
    requires cfg.tenants != map[]
    ensures var t := Setup(cfg, s);
      At(t, c, id) ==
        if c !in Collections(cfg) then At(s, c, id)
        else if Missing(cfg, s, c, id) then Some(PointOf(s.records[id], c, s.records[id].hash))
        else if s.scopeAll && !Live(s, id) then None
        else At(s, c, id)
  {
    WriteMissingAt(cfg, s, c, id);
    RemoveForgottenAt(cfg, WriteMissing(cfg, s), c, id);
  }

  lemma SetupKeeps(cfg: Config, s: Store)
    requires Core(cfg, s)
    ensures Core(cfg, Setup(cfg, s))
    ensures Thorough(s) ==> Thorough(Setup(cfg, s))
    ensures forall all :: LayoutsAgree(cfg, s, all) ==> LayoutsAgree(cfg, Setup(cfg, s), all)
  {
    var t := Setup(cfg, s);
    if cfg.tenants != map[] {
      forall x ensures RecordOk(cfg, t, x) {
        assert RecordOk(cfg, s, x);
      }
      forall c, x ensures PointOk(cfg, t, c, x) && HasPoint(cfg, t, c, x) {
        SetupAt(cfg, s, c, x);
        assert PointOk(cfg, s, c, x) && HasPoint(cfg, s, c, x);
      }
      if Thorough(s) {
        SetupKeepsThorough(cfg, s);
      }
      forall all | LayoutsAgree(cfg, s, all) ensures LayoutsAgree(cfg, t, all) {
        SetupKeepsAgreement(all, cfg, s);
      }
    }
  }

  lemma SetupKeepsThorough(cfg: Config, s: Store)
    requires Core(cfg, s) && Thorough(s) && cfg.tenants != map[]
    ensures Thorough(Setup(cfg, s))
  {
    var t := Setup(cfg, s);
    forall c, x ensures GoneOrPending(t, c, x) {
      SetupAt(cfg, s, c, x);
      assert GoneOrPending(s, c, x);
    }
    forall x ensures ParentLive(t, x) {
      assert ParentLive(s, x);
    }
  }

  lemma SetupKeepsAgreement(all: bool, cfg: Config, s: Store)
    requires Core(cfg, s) && LayoutsAgree(cfg, s, all) && cfg.tenants != map[]
    ensures LayoutsAgree(cfg, Setup(cfg, s), all)
  {
    var t := Setup(cfg, s);
    forall x ensures Agrees(cfg, t, all, x) && Labelled(t, x) {
      assert Agrees(cfg, s, all, x) && Labelled(s, x);
      SetupAt(cfg, s, SHARED, x);
      if x in s.records && s.records[x].org in cfg.tenants {
        var c := TenantCollection(cfg.tenants[s.records[x].org]);
        assert c in Collections(cfg);
        SetupAt(cfg, s, c, x);
        assert HasPoint(cfg, s, c, x) && HasPoint(cfg, s, SHARED, x);
      }
    }
  }

  lemma InitKeeps(cfg: Config, s: Store)
    requires Core(cfg, s)
    ensures Core(cfg, Init(cfg, s))
    ensures Thorough(s) ==> Thorough(Init(cfg, s))
    ensures forall all :: LayoutsAgree(cfg, s, all) ==> LayoutsAgree(cfg, Init(cfg, s), all)
  {
    if s.scopeAll {
      HideKeeps(cfg, s, Survivors(s.records));
    }
    if Thorough(s) {
      NothingToComplete(s);
    }
    SetupKeeps(cfg, CompleteForgets(s));
  }

  /** An error-free memory-init with forgetting complete heals whatever interrupted sweeps left apart. */
  lemma InitHeals(cfg: Config, s: Store)
    requires Core(cfg, s) && LayoutsAgree(cfg, s, false) && s.scopeAll && cfg.tenants != map[]
    ensures LayoutsAgree(cfg, Init(cfg, s), true)
  {
    HideKeeps(cfg, s, Survivors(s.records));
    InitKeeps(cfg, s);
    var h, t := CompleteForgets(s), Init(cfg, s);
    forall x ensures Agrees(cfg, t, true, x) && Labelled(t, x) {
      assert Agrees(cfg, t, false, x) && Labelled(t, x);
      if x in t.records && !Live(t, x) && t.records[x].org in cfg.tenants {
        var c := TenantCollection(cfg.tenants[t.records[x].org]);
        assert c in Collections(cfg);
        SetupAt(cfg, h, c, x);
        SetupAt(cfg, h, SHARED, x);
      }
    }
  }

  lemma InitWriteKeeps(cfg: Config, s: Store, c: Collection, id: Id)
    requires Core(cfg, s) && c in Collections(cfg) && Missing(cfg, s, c, id)
    ensures var t := Put(s, c, id, PointOf(s.records[id], c, s.records[id].hash));
      Core(cfg, t) && (Thorough(s) ==> Thorough(t)) && (forall all :: LayoutsAgree(cfg, s, all) ==> LayoutsAgree(cfg, t, all))
  {
    var p := PointOf(s.records[id], c, s.records[id].hash);
    var t := Put(s, c, id, p);
    forall x ensures RecordOk(cfg, t, x) {
      assert RecordOk(cfg, s, x);
    }
    forall d, x ensures PointOk(cfg, t, d, x) && HasPoint(cfg, t, d, x) {
      PutAt(s, c, id, p, d, x);
      assert PointOk(cfg, s, d, x) && HasPoint(cfg, s, d, x);
    }
    if Thorough(s) {
      forall d, x ensures GoneOrPending(t, d, x) {
        PutAt(s, c, id, p, d, x);
        assert GoneOrPending(s, d, x);
      }
      forall x ensures ParentLive(t, x) {
        assert ParentLive(s, x);
      }
    }
    forall all | LayoutsAgree(cfg, s, all) ensures LayoutsAgree(cfg, t, all) {
      forall x ensures Agrees(cfg, t, all, x) && Labelled(t, x) {
        assert Agrees(cfg, s, all, x) && Labelled(s, x) && HasPoint(cfg, s, c, id);
        PutAt(s, c, id, p, SHARED, x);
        if x in s.records && s.records[x].org in cfg.tenants {
          PutAt(s, c, id, p, TenantCollection(cfg.tenants[s.records[x].org]), x);
        }
      }
    }
  }

  lemma InitSweepKeeps(cfg: Config, s: Store, c: Collection)
    requires Core(cfg, s)
    ensures var t := s.(points := s.points[c := Swept(s, c)]);
      Core(cfg, t) && (Thorough(s) ==> Thorough(t)) && (LayoutsAgree(cfg, s, false) ==> LayoutsAgree(cfg, t, false))
  {
    var t := s.(points := s.points[c := Swept(s, c)]);
    forall x ensures RecordOk(cfg, t, x) {
      assert RecordOk(cfg, s, x);
    }
    forall d, x ensures PointOk(cfg, t, d, x) && HasPoint(cfg, t, d, x) {
      assert At(t, d, x) == if d == c && !Live(s, x) then None else At(s, d, x);
      assert PointOk(cfg, s, d, x) && HasPoint(cfg, s, d, x);
    }
    if Thorough(s) {
      forall d, x ensures GoneOrPending(t, d, x) {
        assert At(t, d, x) == if d == c && !Live(s, x) then None else At(s, d, x);
        assert GoneOrPending(s, d, x);
      }
      forall x ensures ParentLive(t, x) {
        assert ParentLive(s, x);
      }
    }
    if LayoutsAgree(cfg, s, false) {
      forall x ensures Agrees(cfg, t, false, x) && Labelled(t, x) {
        assert Agrees(cfg, s, false, x) && Labelled(s, x);
        assert forall d :: At(t, d, x) == if d == c && !Live(s, x) then None else At(s, d, x);
      }
    }
  }

  lemma RevokeKeeps(cfg: Config, s: Store)
    requires Core(cfg, s)
    ensures var t := s.(records := Revoked(s.records));
      Core(cfg, t) && (Thorough(s) ==> Thorough(t)) && (forall all :: LayoutsAgree(cfg, s, all) ==> LayoutsAgree(cfg, t, all))
  {
    var t := s.(records := Revoked(s.records));
    forall x ensures RecordOk(cfg, t, x) {
      assert RecordOk(cfg, s, x);
    }
    forall c, x ensures PointOk(cfg, t, c, x) && HasPoint(cfg, t, c, x) {
      assert At(t, c, x) == At(s, c, x);
      assert PointOk(cfg, s, c, x) && HasPoint(cfg, s, c, x);
    }
    if Thorough(s) {
      forall c, x ensures GoneOrPending(t, c, x) {
        assert At(t, c, x) == At(s, c, x) && GoneOrPending(s, c, x);
      }
      forall x ensures ParentLive(t, x) {
        assert ParentLive(s, x);
      }
    }
    forall all | LayoutsAgree(cfg, s, all) ensures LayoutsAgree(cfg, t, all) {
      forall x ensures Agrees(cfg, t, all, x) && Labelled(t, x) {
        assert Agrees(cfg, s, all, x) && Labelled(s, x);
      }
    }
  }

  // --- what forget walks ---

  function LiveIds(s: Store): set<Id> {
    set id | id in s.records && Live(s, id)
  }

  /** A child has its parent's owner, so every live row the walk reaches is the caller's own. */
  lemma {:induction false} VisibleWalk(cfg: Config, s: Store, org: Org, owner: Sub, root: Id, id: Id, k: nat)
    requires Core(cfg, s) && Visible(s, org, owner, root)
    ensures Hangs(s.records, VisibleIds(s, org, owner), root, id, k) <==> Hangs(s.records, LiveIds(s), root, id, k)
    ensures Hangs(s.records, LiveIds(s), root, id, k) ==> Visible(s, org, owner, id)
    decreases k
  {
    if k > 0 && id in s.records && s.records[id].derivedFrom.Some? {
      VisibleWalk(cfg, s, org, owner, root, s.records[id].derivedFrom.value, k - 1);
      assert RecordOk(cfg, s, id);
    }
  }

  lemma ForgetReach(cfg: Config, s: Store, org: Org, owner: Sub, root: Id)
    requires Core(cfg, s) && Visible(s, org, owner, root)
    ensures var gone := Tree(s.records, VisibleIds(s, org, owner), root);
      && gone == Tree(s.records, LiveIds(s), root)
      && root in gone
      && (forall id :: id in gone ==> Visible(s, org, owner, id))
      && (forall id :: Downward(s, gone, id))
  {
    var seen := VisibleIds(s, org, owner);
    var gone := Tree(s.records, seen, root);
    forall id, k: nat {
      VisibleWalk(cfg, s, org, owner, root, id, k);
    }
    forall id | id in s.records ensures InTree(s.records, seen, root, id) <==> InTree(s.records, LiveIds(s), root, id) {
    }
    assert Hangs(s.records, seen, root, root, 0);
    forall id ensures Downward(s, gone, id) {
      if Live(s, id) && s.records[id].derivedFrom.Some? && s.records[id].derivedFrom.value in gone {
        var k: nat :| Hangs(s.records, seen, root, s.records[id].derivedFrom.value, k);
        assert RecordOk(cfg, s, id);
        assert Hangs(s.records, seen, root, id, k + 1);
      }
    }
  }

  // --- all events ---

  predicate SlugsDistinctFromShared(cfg: Config) {
    forall org :: org in cfg.tenants ==> cfg.tenants[org] != "shared"
  }

  lemma ForgetKeeps(cfg: Config, s: Store, org: Org, owner: Sub, id: Id, fault: Fault)
    requires Core(cfg, s)
    ensures var t := DoForget(cfg, s, org, owner, id, fault);
      Core(cfg, t) && (Thorough(s) ==> Thorough(t)) && (forall all :: LayoutsAgree(cfg, s, all) ==> LayoutsAgree(cfg, t, all))
  {
    if Visible(s, org, owner, id) {
      if s.scopeAll {
        var gone := Tree(s.records, VisibleIds(s, org, owner), id);
        ForgetReach(cfg, s, org, owner, id);
        EraseKeepsCore(cfg, s, org, gone, fault);
        if Thorough(s) {
          EraseKeepsThorough(cfg, s, org, gone, fault);
        }
        forall all | LayoutsAgree(cfg, s, all) ensures LayoutsAgree(cfg, DoForget(cfg, s, org, owner, id, fault), all) {
          EraseKeepsAgreement(all, cfg, s, org, gone, fault);
        }
      } else {
        HideKeeps(cfg, s, {id});
      }
    }
  }

  lemma WriteKeeps(cfg: Config, s: Store, id: Id, r: Record, fault: Fault)
    requires Core(cfg, s) && Writes(cfg, s, id, r)
    ensures var t := Write(cfg, s, id, r, fault);
      && Core(cfg, t) && (Thorough(s) ==> Thorough(t))
      && forall all :: LayoutsAgree(cfg, s, all) && SlugsDistinctFromShared(cfg) ==> LayoutsAgree(cfg, t, all)
  {
    WriteKeepsCore(cfg, s, id, r, fault);
    if Thorough(s) {
      WriteKeepsThorough(cfg, s, id, r, fault);
    }
    forall all | LayoutsAgree(cfg, s, all) && SlugsDistinctFromShared(cfg) ensures LayoutsAgree(cfg, Write(cfg, s, id, r, fault), all) {
      WriteKeepsAgreement(all, cfg, s, id, r, fault);
    }
  }

  lemma NextKeeps(cfg: Config, s: Store, e: Event)
    requires Core(cfg, s)
    ensures var t := Next(cfg, s, e);
      && Core(cfg, t)
      && (Thorough(s) && e != SetScope(false) ==> Thorough(t))
      && forall all :: LayoutsAgree(cfg, s, all) && SlugsDistinctFromShared(cfg) && (all ==> !e.InitSweep?) ==>
           LayoutsAgree(cfg, t, all)
  {
    match e {
      case Remember(org, owner, id, content, secret, fault) =>
        if id !in s.records && !secret {
          WriteKeeps(cfg, s, id, NewMemory(cfg, s, org, owner, content), fault);
        }
      case Confirm(org, owner, id, fault) =>
        if Visible(s, org, owner, id) && s.records[id].status == Unconfirmed {
          assert RecordOk(cfg, s, id);
          WriteKeeps(cfg, s, id, s.records[id].(status := Confirmed, auto := false), fault);
        }
      case Summarise(org, owner, source, id, fault) =>
        if id !in s.records && Visible(s, org, owner, source) {
          WriteKeeps(cfg, s, id, NewSummary(cfg, s, org, owner, source), fault);
        }
      case Forget(org, owner, id, fault) => ForgetKeeps(cfg, s, org, owner, id, fault);
      case SetScope(all) => SettingKeeps(cfg, s, s.(scopeAll := all));
      case SetAutoConfirm(on) => SettingKeeps(cfg, s, s.(autoConfirm := on));
      case RevokeAuto => RevokeKeeps(cfg, s);
      case FullInit => InitKeeps(cfg, s);
      case InitForgets =>
        HideKeeps(cfg, s, Survivors(s.records));
        if Thorough(s) {
          NothingToComplete(s);
        }
      case InitWrite(c, id) =>
        if c in Collections(cfg) && Missing(cfg, s, c, id) {
          InitWriteKeeps(cfg, s, c, id);
        }
      case InitSweep(c) => InitSweepKeeps(cfg, s, c);
    }
  }

  lemma SettingKeeps(cfg: Config, s: Store, t: Store)
    requires Core(cfg, s) && t == s.(scopeAll := t.scopeAll, autoConfirm := t.autoConfirm)
    ensures Core(cfg, t)
    ensures Thorough(s) && t.scopeAll ==> Thorough(t)
    ensures forall all :: LayoutsAgree(cfg, s, all) ==> LayoutsAgree(cfg, t, all)
  {
    forall x ensures RecordOk(cfg, t, x) {
      assert RecordOk(cfg, s, x);
    }
    forall c, x ensures PointOk(cfg, t, c, x) && HasPoint(cfg, t, c, x) {
      assert At(t, c, x) == At(s, c, x) && PointOk(cfg, s, c, x) && HasPoint(cfg, s, c, x);
    }
    if Thorough(s) {
      forall c, x ensures GoneOrPending(t, c, x) {
        assert At(t, c, x) == At(s, c, x) && GoneOrPending(s, c, x);
      }
      forall x ensures ParentLive(t, x) {
        assert ParentLive(s, x);
      }
    }
    forall all | LayoutsAgree(cfg, s, all) ensures LayoutsAgree(cfg, t, all) {
      forall x ensures Agrees(cfg, t, all, x) && Labelled(t, x) {
        assert Agrees(cfg, s, all, x) && Labelled(s, x);
      }
    }
  }

  lemma StartOk(cfg: Config, seeds: map<Id, Record>)
    requires SeedsOk(cfg, seeds) && cfg.tenants != map[]
    ensures Core(cfg, Start(cfg, seeds)) && Thorough(Start(cfg, seeds))
    ensures forall all :: LayoutsAgree(cfg, Start(cfg, seeds), all)
  {
    var s := Store(seeds, {}, map[], true, false);
    forall x ensures ParentLive(s, x) {
    }
    NothingToComplete(s);
    var t := Setup(cfg, s);
    forall x ensures RecordOk(cfg, t, x) && ParentLive(t, x) && Labelled(t, x) {
      SetupAt(cfg, s, SHARED, x);
    }
    forall all, x ensures Agrees(cfg, t, all, x) {
      SetupAt(cfg, s, SHARED, x);
      if x in seeds && seeds[x].org in cfg.tenants {
        SetupAt(cfg, s, TenantCollection(cfg.tenants[seeds[x].org]), x);
      }
    }
    forall c, x ensures PointOk(cfg, t, c, x) && HasPoint(cfg, t, c, x) && GoneOrPending(t, c, x) {
      SetupAt(cfg, s, c, x);
    }
  }

  lemma {:induction false} RunKeeps(cfg: Config, s: Store, events: seq<Event>)
    requires Core(cfg, s)
    ensures var t := After(cfg, s, events);
      && Core(cfg, t)
      && (Thorough(s) && SetScope(false) !in events ==> Thorough(t))
      && forall all | LayoutsAgree(cfg, s, all) && SlugsDistinctFromShared(cfg) ::
           (all ==> forall c :: InitSweep(c) !in events) ==> LayoutsAgree(cfg, t, all)
    decreases |events|
  {
    if events != [] {
      NextKeeps(cfg, s, events[0]);
      RunKeeps(cfg, Next(cfg, s, events[0]), events[1..]);
      assert events == [events[0]] + events[1..];
    }
  }
}
