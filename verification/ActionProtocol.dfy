/**
 The life of a sensitive action: proposed, decided, queued, claimed, verified, executed.

 Several workers run at once. Every event below is one database transaction, one provider call, or
 the death of a worker, and events of different workers interleave freely. An event that is not
 enabled changes nothing, so every list of events is a run.
 */
module ActionProtocol {
  import opened Wrappers
  import opened CanonicalJson

  type ActionId = string
  type UserId = string
  type WorkerId = nat
  type Key = string

  // ---------------------------------------------------------------------------------------------
  // The published transition map
  // ---------------------------------------------------------------------------------------------

  datatype ActionState =
    | Proposed | PendingApproval | Approved | Rejected | Queued | Executing | Succeeded | Failed | Cancelled

  function AllowedTransitions(state: ActionState): set<ActionState> {
    match state
    case Proposed => {PendingApproval, Cancelled}
    case PendingApproval => {Approved, Rejected, Cancelled}
    case Approved => {Queued, Cancelled}
    case Queued => {Executing, Cancelled}
    case Executing => {Succeeded, Failed, Queued}
    case _ => {}
  }

  predicate CanTransition(current: ActionState, requested: ActionState) {
    requested in AllowedTransitions(current)
  }

  predicate OnMap(path: seq<ActionState>) {
    |path| > 0 && forall i :: 0 <= i < |path| - 1 ==> CanTransition(path[i], path[i + 1])
  }

  /** How often a path goes back from EXECUTING to QUEUED. */
  function Requeues(path: seq<ActionState>): nat {
    if |path| < 2 then 0
    else (if path[0] == Executing && path[1] == Queued then 1 else 0) + Requeues(path[1..])
  }

  /** The most moves left when nothing is requeued. */
  function MovesLeft(state: ActionState): nat {
    match state
    case Proposed => 5
    case PendingApproval => 4
    case Approved => 3
    case Queued => 2
    case Executing => 1
    case _ => 0
  }

  lemma {:induction false} PathBound(path: seq<ActionState>)
    requires OnMap(path)
    ensures |path| - 1 + MovesLeft(path[|path| - 1]) <= MovesLeft(path[0]) + 2 * Requeues(path)
  {
    if |path| > 1 {
      assert CanTransition(path[0], path[1]);
      PathBound(path[1..]);
    }
  }

  function LongestPath(k: nat): seq<ActionState> {
    [Proposed, PendingApproval, Approved] + Attempts(k)
  }

  function Attempts(k: nat): seq<ActionState> {
    if k == 0 then [Queued, Executing, Succeeded] else [Queued, Executing] + Attempts(k - 1)
  }

  lemma {:induction false} AttemptsOnMap(k: nat)
    ensures var p := Attempts(k); |p| == 3 + 2 * k && OnMap(p) && p[0] == Queued && Requeues(p) == k
  {
    if k > 0 {
      AttemptsOnMap(k - 1);
      var p, q := Attempts(k), Attempts(k - 1);
      assert p[1..][1..] == q && p[1] == Executing && p[2] == q[0];
      forall i | 0 <= i < |p| - 1 ensures CanTransition(p[i], p[i + 1]) {
        if i >= 2 {
          assert CanTransition(q[i - 2], q[i - 1]);
        }
      }
      assert Requeues(p[1..]) == 1 + Requeues(q);
    } else {
      var p := Attempts(0);
      assert Requeues(p[1..][1..]) == 0;
    }
  }

  /** A path from PROPOSED with k requeues has at most 5 + 2k moves, and one has exactly that many. */
  lemma RunLengthIsTight(path: seq<ActionState>, k: nat)
    requires OnMap(path) && path[0] == Proposed && Requeues(path) == k
    ensures |path| - 1 <= 5 + 2 * k
    ensures OnMap(LongestPath(k)) && Requeues(LongestPath(k)) == k && |LongestPath(k)| - 1 == 5 + 2 * k
  {
    PathBound(path);
    AttemptsOnMap(k);
    var p, q := LongestPath(k), Attempts(k);
    assert p[1..][1..][1..] == q;
    assert Requeues(p[1..]) == Requeues(p[1..][1..]) == Requeues(q);
    forall i | 0 <= i < |p| - 1 ensures CanTransition(p[i], p[i + 1]) {
      if i >= 3 {
        assert CanTransition(q[i - 3], q[i - 2]);
      }
    }
  }

  // ---------------------------------------------------------------------------------------------
  // The tables, the workers and the provider
  // ---------------------------------------------------------------------------------------------

  datatype Action = Action(requester: UserId, payload: Payload, hash: string, state: ActionState, expiresAt: int)

  datatype Decision = Decision(approver: UserId, approved: bool, approvedHash: string)

  datatype JobState = JobQueued | JobExecuting | JobSucceeded | JobFailed

  datatype Job = Job(state: JobState, attempts: nat, leaseExpires: int, availableAt: int)

  datatype Outcome = OutSucceeded | OutFailed | OutAmbiguous

  /** What a claim read, in the claiming transaction. Nothing after it reads the row again. */
  datatype ClaimedJob = ClaimedJob(
    id: ActionId, payload: Payload, hash: string, state: ActionState, expiresAt: int, requester: UserId, attempts: nat)

  datatype Phase =
    | Idle
    | HasJob(job: ClaimedJob)
    | Verified(job: ClaimedJob, key: Key)
    | Reserved(job: ClaimedJob, key: Key)
    | Reconciling(job: ClaimedJob, key: Key)
    | Recording(job: ClaimedJob, key: Key, outcome: Outcome)
    | Refusing(job: ClaimedJob)

  /** Something the provider did. */
  datatype Effect = Effect(id: ActionId, key: Key, payload: Payload)

  datatype System = System(
    now: int,
    actions: map<ActionId, Action>,
    decisions: map<ActionId, Decision>,
    jobs: map<ActionId, Job>,
    executions: map<Key, Outcome>,
    workers: map<WorkerId, Phase>,
    calls: seq<Key>,
    effects: seq<Effect>,
    proposals: map<ActionId, Payload>)

  const MAX_ATTEMPTS := 3
  const EMPTY := System(0, map[], map[], map[], map[], map[], [], [], map[])

  function PhaseOf(s: System, w: WorkerId): Phase {
    if w in s.workers then s.workers[w] else Idle
  }

  /** The reply of the provider to one call. */
  datatype Reply = Answered(outcome: Outcome) | Raised

  datatype Event =
    | Tick(delta: nat)
    | Propose(id: ActionId, requester: UserId, payload: Payload, lifetime: nat)
    | TamperPayload(id: ActionId, payload: Payload)
    | TamperHash(id: ActionId, hash: string)
    | Decide(id: ActionId, approver: UserId, approved: bool, presented: string)
    | Claim(w: WorkerId, id: ActionId, lease: nat)
    | Verify(w: WorkerId)
    | Reserve(w: WorkerId)
    | Call(w: WorkerId, landed: bool, reply: Reply)
    | Lookup(w: WorkerId, observed: Option<Outcome>)
    | Fault(w: WorkerId)  // an exception between two steps of a worker
    | Record(w: WorkerId)
    | Refuse(w: WorkerId)
    | Crash(w: WorkerId)

  /** The key an execution is reserved under. */
  function IdempotencyKey(id: ActionId, hash: string): Key {
    id + [':'] + (if |hash| <= 32 then hash else hash[..32])
  }

  predicate Claimable(s: System, id: ActionId) {
    id in s.jobs
    && var job := s.jobs[id];
       ((job.state == JobQueued && job.availableAt <= s.now)
        || (job.state == JobExecuting && job.leaseExpires < s.now))
       && job.attempts < MAX_ATTEMPTS
  }

  datatype Refusal =
    | StateForbids | NoDecision | NotApproved | SelfApproval | Expired | StoredHashMismatch | ApprovedHashMismatch

  /** The pre-execution checks, in the worker's order. */
  function Checks(h: Payload -> string, s: System, job: ClaimedJob): Result<Key, Refusal> {
    if job.state !in {Approved, Queued, Executing} then Err(StateForbids)
    else if job.id !in s.decisions then Err(NoDecision)
    else if !s.decisions[job.id].approved then Err(NotApproved)
    else if s.decisions[job.id].approver == job.requester then Err(SelfApproval)
    else if job.expiresAt < s.now then Err(Expired)
    else if h(job.payload) != job.hash then Err(StoredHashMismatch)
    else if s.decisions[job.id].approvedHash != job.hash then Err(ApprovedHashMismatch)
    else Ok(IdempotencyKey(job.id, job.hash))
  }

  predicate LandedIn(effects: seq<Effect>, key: Key) {
    exists i :: 0 <= i < |effects| && effects[i].key == key
  }

  predicate Landed(s: System, key: Key) {
    LandedIn(s.effects, key)
  }

  /** The guards: SQL conditions, constraints and triggers, and what each worker is in the middle of. */
  predicate Enabled(s: System, e: Event) {
    match e
    case Tick(_) => true
    case Propose(id, _, payload, _) => id !in s.actions && ':' !in id
    case TamperPayload(id, payload) => id in s.actions
    case TamperHash(id, _) => id in s.actions
    case Decide(id, approver, _, presented) =>
      id in s.actions
      && var action := s.actions[id];
         presented == action.hash
         && action.state == PendingApproval
         && id !in s.decisions
         && approver != action.requester
         && s.now < action.expiresAt
    case Claim(w, id, _) => PhaseOf(s, w).Idle? && Claimable(s, id) && id in s.actions
    case Verify(w) => PhaseOf(s, w).HasJob?
    case Reserve(w) => PhaseOf(s, w).Verified?
    case Call(w, landed, reply) =>
      // An honest adapter: success is only ever reported for an effect that landed.
      PhaseOf(s, w).Reserved? && (reply == Answered(OutSucceeded) ==> landed)
    case Lookup(w, observed) =>
      PhaseOf(s, w).Reconciling? && (observed == Some(OutSucceeded) ==> Landed(s, PhaseOf(s, w).key))
    case Fault(w) => !PhaseOf(s, w).Idle? && !PhaseOf(s, w).Refusing?
    case Record(w) => PhaseOf(s, w).Recording?
    case Refuse(w) => PhaseOf(s, w).Refusing?
    case Crash(_) => true
  }

  function Pow2(n: nat): nat {
    if n == 0 then 1 else 2 * Pow2(n - 1)
  }

  function FinishJob(job: Job, state: JobState, now: int, backoff: nat): Job {
    Job(state, job.attempts, 0, if state == JobQueued then now + backoff else job.availableAt)
  }

  /** The worker's UPDATE passes row security only while the action is still in the worker's hands. */
  function SetActionState(action: Action, state: ActionState): Action {
    if action.state in {Approved, Queued, Executing} then action.(state := state) else action
  }

  predicate Retryable(job: ClaimedJob, outcome: Outcome) {
    outcome == OutFailed && job.attempts < MAX_ATTEMPTS
  }

  function JobStateAfter(job: ClaimedJob, outcome: Outcome): JobState {
    if outcome == OutSucceeded then JobSucceeded
    else if Retryable(job, outcome) then JobQueued
    else JobFailed
  }

  function ActionStateAfter(job: ClaimedJob, outcome: Outcome): ActionState {
    if outcome == OutSucceeded then Succeeded
    else if Retryable(job, outcome) then Executing
    else Failed
  }

  function Close(s: System, job: ClaimedJob, jobState: JobState, actionState: ActionState, backoff: nat): System {
    s.(jobs := if job.id in s.jobs then s.jobs[job.id := FinishJob(s.jobs[job.id], jobState, s.now, backoff)]
               else s.jobs,
       actions := if job.id in s.actions then s.actions[job.id := SetActionState(s.actions[job.id], actionState)]
                  else s.actions)
  }

  function Move(s: System, w: WorkerId, phase: Phase): System {
    s.(workers := s.workers[w := phase])
  }

  // What each event does to the tables.

  function DoPropose(h: Payload -> string, s: System, id: ActionId, requester: UserId, payload: Payload, lifetime: nat)
    : System
  {
    s.(actions := s.actions[id := Action(requester, payload, h(payload), PendingApproval, s.now + lifetime)],
       proposals := s.proposals[id := payload])
  }

  function DoDecide(s: System, id: ActionId, approver: UserId, approved: bool, presented: string): System
    requires id in s.actions
  {
    s.(decisions := s.decisions[id := Decision(approver, approved, presented)],
       actions := s.actions[id := s.actions[id].(state := if approved then Approved else Rejected)],
       jobs := if approved && id !in s.jobs then s.jobs[id := Job(JobQueued, 0, 0, s.now)] else s.jobs)
  }

  /** The claiming UPDATE. */
  function Lease(s: System, id: ActionId, lease: nat): System
    requires id in s.jobs
  {
    var job := s.jobs[id];
    s.(jobs := s.jobs[id := Job(JobExecuting, job.attempts + 1, s.now + lease, job.availableAt)])
  }

  function ReadJob(s: System, id: ActionId): ClaimedJob
    requires id in s.jobs && id in s.actions
  {
    var a := s.actions[id];
    ClaimedJob(id, a.payload, a.hash, a.state, a.expiresAt, a.requester, s.jobs[id].attempts)
  }

  function DoReserve(s: System, w: WorkerId, job: ClaimedJob, key: Key): System {
    if key in s.executions then Move(s, w, Reconciling(job, key))
    else Move(s.(executions := s.executions[key := OutAmbiguous]), w, Reserved(job, key))
  }

  /** An ambiguous reply is looked up before anything is recorded; any other is recorded as it is. */
  function AfterReply(job: ClaimedJob, key: Key, reply: Reply): Phase {
    match reply
    case Raised => Refusing(job)
    case Answered(outcome) =>
      if outcome == OutAmbiguous then Reconciling(job, key) else Recording(job, key, outcome)
  }

  function DoCall(s: System, w: WorkerId, job: ClaimedJob, key: Key, landed: bool, reply: Reply): System {
    Move(s.(calls := s.calls + [key],
            effects := if landed then s.effects + [Effect(job.id, key, job.payload)] else s.effects), w,
         AfterReply(job, key, reply))
  }

  function DoRecord(s: System, job: ClaimedJob, key: Key, outcome: Outcome): System {
    Close(s.(executions := s.executions[key := outcome]), job, JobStateAfter(job, outcome),
          ActionStateAfter(job, outcome), 30 * Pow2(job.attempts))
  }

  function Apply(h: Payload -> string, s: System, e: Event): System
    requires Enabled(s, e)
  {
    match e
    case Tick(delta) => s.(now := s.now + delta)
    case Propose(id, requester, payload, lifetime) => DoPropose(h, s, id, requester, payload, lifetime)
    case TamperPayload(id, payload) => s.(actions := s.actions[id := s.actions[id].(payload := payload)])
    case TamperHash(id, hash) => s.(actions := s.actions[id := s.actions[id].(hash := hash)])
    case Decide(id, approver, approved, presented) => DoDecide(s, id, approver, approved, presented)
    case Claim(w, id, lease) => Move(Lease(s, id, lease), w, HasJob(ReadJob(Lease(s, id, lease), id)))
    case Verify(w) =>
      var job := PhaseOf(s, w).job;
      Move(s, w, match Checks(h, s, job)
                 case Ok(key) => Verified(job, key)
                 case Err(_) => Refusing(job))
    case Reserve(w) => DoReserve(s, w, PhaseOf(s, w).job, PhaseOf(s, w).key)
    case Call(w, landed, reply) => DoCall(s, w, PhaseOf(s, w).job, PhaseOf(s, w).key, landed, reply)
    case Lookup(w, observed) =>
      var p := PhaseOf(s, w);
      Move(s, w, Recording(p.job, p.key, if observed.Some? then observed.value else OutFailed))
    case Fault(w) => Move(s, w, Refusing(PhaseOf(s, w).job))
    case Record(w) => Move(DoRecord(s, PhaseOf(s, w).job, PhaseOf(s, w).key, PhaseOf(s, w).outcome), w, Idle)
    case Refuse(w) => Move(Close(s, PhaseOf(s, w).job, JobFailed, Failed, 0), w, Idle)
    case Crash(w) => Move(s, w, Idle)
  }

  function Next(h: Payload -> string, s: System, e: Event): System {
    if Enabled(s, e) then Apply(h, s, e) else s
  }

  function After(h: Payload -> string, s: System, events: seq<Event>): System
    decreases |events|
  {
    if events == [] then s else After(h, Next(h, s, events[0]), events[1..])
  }

  lemma {:induction false} AfterConcat(h: Payload -> string, s: System, a: seq<Event>, b: seq<Event>)
    ensures After(h, s, a + b) == After(h, After(h, s, a), b)
    decreases |a|
  {
    if |a| == 0 {
      assert a + b == b;
    } else {
      assert (a + b)[1..] == a[1..] + b;
      AfterConcat(h, Next(h, s, a[0]), a[1..], b);
    }
  }

  // ---------------------------------------------------------------------------------------------
  // What every run keeps
  // ---------------------------------------------------------------------------------------------

  /** An independent approval of exactly this payload is on record. */
  predicate Approval(h: Payload -> string, s: System, id: ActionId, payload: Payload) {
    id in s.actions && id in s.decisions && id in s.jobs
    && s.decisions[id].approved
    && s.decisions[id].approver != s.actions[id].requester
    && s.decisions[id].approvedHash == h(payload)
  }

  predicate Holds(h: Payload -> string, s: System, job: ClaimedJob, key: Key) {
    Approval(h, s, job.id, job.payload)
    && job.hash == h(job.payload)
    && key == IdempotencyKey(job.id, job.hash)
  }

  predicate JobRead(s: System, job: ClaimedJob) {
    job.id in s.actions && job.id in s.jobs
    && job.requester == s.actions[job.id].requester
    && job.attempts <= MAX_ATTEMPTS
  }

  predicate PhaseOk(h: Payload -> string, s: System, p: Phase) {
    match p
    case Idle => true
    case HasJob(job) => JobRead(s, job)
    case Verified(job, key) => JobRead(s, job) && Holds(h, s, job, key)
    case Reserved(job, key) =>
      JobRead(s, job) && Holds(h, s, job, key) && key in s.executions && key !in s.calls
    case Reconciling(job, key) => JobRead(s, job) && Holds(h, s, job, key) && key in s.executions
    case Recording(job, key, outcome) =>
      JobRead(s, job) && Holds(h, s, job, key) && key in s.executions
      && (outcome == OutSucceeded ==> Landed(s, key))
    case Refusing(job) => JobRead(s, job)
  }

  /** What the tables say about one action. */
  predicate RowOk(s: System, id: ActionId) {
    && (id in s.actions ==> ':' !in id && id in s.proposals && ActionShape(s, id))
    && (id in s.proposals ==> id in s.actions)
    && (id in s.decisions ==>
          id in s.actions && s.decisions[id].approver != s.actions[id].requester
          && s.actions[id].state != PendingApproval)
    && (id in s.jobs ==> id in s.decisions && s.decisions[id].approved && s.jobs[id].attempts <= MAX_ATTEMPTS)
  }

  predicate ActionShape(s: System, id: ActionId)
    requires id in s.actions
  {
    var state := s.actions[id].state;
    && state in {PendingApproval, Approved, Rejected, Executing, Succeeded, Failed}
    && (state == Rejected ==> id in s.decisions && !s.decisions[id].approved)
    && (state in {Approved, Executing, Succeeded, Failed} ==> id in s.decisions && s.decisions[id].approved)
    && (state == Succeeded ==> Landed(s, IdempotencyKey(id, s.decisions[id].approvedHash)))
  }

  predicate EffectOk(h: Payload -> string, s: System, i: int) {
    0 <= i < |s.effects| ==>
      var e := s.effects[i];
      && e.key in s.calls
      && Approval(h, s, e.id, e.payload)
      && e.key == IdempotencyKey(e.id, h(e.payload))
  }

  predicate ExecutionOk(s: System, key: Key) {
    && (key in s.calls ==> key in s.executions)
    && (key in s.executions && s.executions[key] == OutSucceeded ==> Landed(s, key))
  }

  /** No other worker holds the reservation this one may call with. */
  predicate Alone(s: System, v: WorkerId, w: WorkerId) {
    PhaseOf(s, v).Reserved? && PhaseOf(s, w).Reserved? && v != w ==> PhaseOf(s, v).key != PhaseOf(s, w).key
  }

  predicate Distinct(keys: seq<Key>) {
    forall i, j :: 0 <= i < j < |keys| ==> keys[i] != keys[j]
  }

  function EffectKeys(effects: seq<Effect>): seq<Key> {
    seq(|effects|, i requires 0 <= i < |effects| => effects[i].key)
  }

  ghost predicate Inv(h: Payload -> string, s: System) {
    && (forall id :: RowOk(s, id))
    && (forall w :: PhaseOk(h, s, PhaseOf(s, w)))
    && (forall v, w :: Alone(s, v, w))
    && (forall key :: ExecutionOk(s, key))
    && (forall i :: EffectOk(h, s, i))
    && Distinct(s.calls)
    && Distinct(EffectKeys(s.effects))
  }

  /** What no event ever takes back. */
  predicate RowGrows(s: System, t: System, id: ActionId) {
    && (id in s.actions ==> id in t.actions && t.actions[id].requester == s.actions[id].requester)
    && (id in s.decisions ==> id in t.decisions && t.decisions[id] == s.decisions[id])
    && (id in s.jobs ==> id in t.jobs)
    && (id in s.proposals ==> id in t.proposals && t.proposals[id] == s.proposals[id])
  }

  ghost predicate Grows(s: System, t: System) {
    && (forall id :: RowGrows(s, t, id))
    && s.executions.Keys <= t.executions.Keys
    && s.calls <= t.calls
    && s.effects <= t.effects
  }

  lemma GrowsTransitive(s: System, t: System, u: System)
    requires Grows(s, t) && Grows(t, u)
    ensures Grows(s, u)
  {
    forall id ensures RowGrows(s, u, id) {
      assert RowGrows(s, t, id) && RowGrows(t, u, id);
    }
  }

  lemma LandedGrows(s: System, t: System, key: Key)
    requires s.effects <= t.effects && Landed(s, key)
    ensures Landed(t, key)
  {
    var i :| 0 <= i < |s.effects| && s.effects[i].key == key;
    assert t.effects[i].key == key;
  }

  lemma PhaseGrows(h: Payload -> string, s: System, t: System, p: Phase)
    requires Grows(s, t) && PhaseOk(h, s, p)
    requires p.Reserved? ==> p.key !in t.calls
    ensures PhaseOk(h, t, p)
  {
    if !p.Idle? {
      assert RowGrows(s, t, p.job.id);
      if p.Recording? && p.outcome == OutSucceeded {
        LandedGrows(s, t, p.key);
      }
    }
  }

  lemma EffectGrows(h: Payload -> string, s: System, t: System, i: int)
    requires Grows(s, t) && EffectOk(h, s, i) && i < |s.effects|
    ensures EffectOk(h, t, i)
  {
    if 0 <= i {
      assert RowGrows(s, t, s.effects[i].id);
    }
  }

  /** A row that did not change stays as good as it was. */
  lemma RowFrame(s: System, t: System, id: ActionId)
    requires RowOk(s, id) && s.effects <= t.effects
    requires (id in s.actions <==> id in t.actions) && (id in s.actions ==> s.actions[id].state == t.actions[id].state)
    requires id in s.actions ==> s.actions[id].requester == t.actions[id].requester
    requires (id in s.decisions <==> id in t.decisions) && (id in s.decisions ==> s.decisions[id] == t.decisions[id])
    requires (id in s.jobs <==> id in t.jobs) && (id in s.jobs ==> t.jobs[id].attempts <= MAX_ATTEMPTS)
    requires id in s.proposals <==> id in t.proposals
    ensures RowOk(t, id)
  {
    if id in s.actions && s.actions[id].state == Succeeded {
      LandedGrows(s, t, IdempotencyKey(id, s.decisions[id].approvedHash));
    }
  }

  /** A change to the tables alone: the workers and the provider lose nothing. */
  lemma TablesFrame(h: Payload -> string, s: System, t: System)
    requires Inv(h, s) && Grows(s, t) && forall id :: RowOk(t, id)
    requires t.workers == s.workers && t.calls == s.calls && t.effects == s.effects && t.executions == s.executions
    ensures Inv(h, t)
  {
    forall w ensures PhaseOk(h, t, PhaseOf(t, w)) {
      assert PhaseOk(h, s, PhaseOf(s, w));
      PhaseGrows(h, s, t, PhaseOf(s, w));
    }
    forall v, w ensures Alone(t, v, w) {
      assert Alone(s, v, w);
    }
    forall key ensures ExecutionOk(t, key) {
      assert ExecutionOk(s, key);
    }
    forall i ensures EffectOk(h, t, i) {
      assert EffectOk(h, s, i);
      if i < |s.effects| {
        EffectGrows(h, s, t, i);
      }
    }
  }

  /** A change to what one worker, the executions and the provider hold: the tables lose nothing. */
  lemma WorkerFrame(h: Payload -> string, s: System, w: WorkerId, t: System)
    requires Inv(h, s) && Grows(s, t)
    requires t.actions == s.actions && t.decisions == s.decisions && t.jobs == s.jobs && t.proposals == s.proposals
    requires forall v :: v != w ==> PhaseOf(t, v) == PhaseOf(s, v)
    requires forall v :: v != w && PhaseOf(s, v).Reserved? ==> PhaseOf(s, v).key !in t.calls[|s.calls|..]
    requires PhaseOk(h, t, PhaseOf(t, w))
    ensures forall id :: RowOk(t, id)
    ensures forall v :: PhaseOk(h, t, PhaseOf(t, v))
    ensures forall i :: i < |s.effects| ==> EffectOk(h, t, i)
  {
    forall id ensures RowOk(t, id) {
      assert RowOk(s, id);
      RowFrame(s, t, id);
    }
    forall v ensures PhaseOk(h, t, PhaseOf(t, v)) {
      if v != w {
        assert PhaseOk(h, s, PhaseOf(s, v));
        assert t.calls == s.calls + t.calls[|s.calls|..];
        PhaseGrows(h, s, t, PhaseOf(s, v));
      }
    }
    forall i | i < |s.effects| ensures EffectOk(h, t, i) {
      assert EffectOk(h, s, i);
      EffectGrows(h, s, t, i);
    }
  }

  lemma MoveKeeps(h: Payload -> string, s: System, w: WorkerId, p: Phase)
    requires Inv(h, s) && PhaseOk(h, s, p) && !p.Reserved?
    ensures Inv(h, Move(s, w, p)) && Grows(s, Move(s, w, p))
  {
    var t := Move(s, w, p);
    PhaseGrows(h, s, t, p);
    WorkerFrame(h, s, w, t);
    forall v, u ensures Alone(t, v, u) {
      assert Alone(s, v, u);
    }
    forall key ensures ExecutionOk(t, key) {
      assert ExecutionOk(s, key);
    }
    forall i ensures EffectOk(h, t, i) {
      assert i < |s.effects| ==> EffectOk(h, t, i);
    }
  }

  lemma ProposeKeeps(h: Payload -> string, s: System, id: ActionId, requester: UserId, payload: Payload, lifetime: nat)
    requires Inv(h, s) && id !in s.actions && ':' !in id
    ensures var t := DoPropose(h, s, id, requester, payload, lifetime); Inv(h, t) && Grows(s, t)
  {
    var t := DoPropose(h, s, id, requester, payload, lifetime);
    assert RowOk(s, id);
    forall x ensures RowOk(t, x) {
      assert RowOk(s, x);
      if x != id {
        RowFrame(s, t, x);
      }
    }
    TablesFrame(h, s, t);
  }

  lemma TamperKeeps(h: Payload -> string, s: System, id: ActionId, payload: Payload, hash: string)
    requires Inv(h, s) && id in s.actions
    ensures var t := s.(actions := s.actions[id := s.actions[id].(payload := payload, hash := hash)]);
      Inv(h, t) && Grows(s, t)
  {
    var t := s.(actions := s.actions[id := s.actions[id].(payload := payload, hash := hash)]);
    forall x ensures RowOk(t, x) {
      assert RowOk(s, x);
      RowFrame(s, t, x);
    }
    TablesFrame(h, s, t);
  }

  lemma DecideKeeps(h: Payload -> string, s: System, id: ActionId, approver: UserId, approved: bool, presented: string)
    requires Inv(h, s) && id in s.actions && id !in s.decisions
    requires s.actions[id].state == PendingApproval && approver != s.actions[id].requester
    ensures var t := DoDecide(s, id, approver, approved, presented); Inv(h, t) && Grows(s, t)
  {
    var t := DoDecide(s, id, approver, approved, presented);
    assert RowOk(s, id);
    forall x ensures RowOk(t, x) {
      assert RowOk(s, x);
      if x != id {
        RowFrame(s, t, x);
      }
    }
    TablesFrame(h, s, t);
  }

  lemma LeaseKeeps(h: Payload -> string, s: System, id: ActionId, lease: nat)
    requires Inv(h, s) && Claimable(s, id)
    ensures Inv(h, Lease(s, id, lease)) && Grows(s, Lease(s, id, lease))
  {
    var t := Lease(s, id, lease);
    forall x ensures RowOk(t, x) {
      assert RowOk(s, x);
      RowFrame(s, t, x);
    }
    TablesFrame(h, s, t);
  }

  lemma CloseKeeps(h: Payload -> string, s: System, job: ClaimedJob, jobState: JobState, actionState: ActionState,
                   backoff: nat)
    requires Inv(h, s) && JobRead(s, job)
    requires actionState in {Executing, Succeeded, Failed}
    requires actionState == Succeeded ==>
      job.id in s.decisions && Landed(s, IdempotencyKey(job.id, s.decisions[job.id].approvedHash))
    ensures var t := Close(s, job, jobState, actionState, backoff); Inv(h, t) && Grows(s, t)
  {
    var t := Close(s, job, jobState, actionState, backoff);
    forall x ensures RowOk(t, x) {
      assert RowOk(s, x);
      if x != job.id || t.actions[x].state == s.actions[x].state {
        RowFrame(s, t, x);
      }
    }
    TablesFrame(h, s, t);
  }

  /** Recording what became of an execution whose effect is as recorded. */
  lemma OutcomeKeeps(h: Payload -> string, s: System, key: Key, outcome: Outcome)
    requires Inv(h, s) && key in s.executions && (outcome == OutSucceeded ==> Landed(s, key))
    ensures var t := s.(executions := s.executions[key := outcome]); Inv(h, t) && Grows(s, t)
  {
    var t := s.(executions := s.executions[key := outcome]);
    assert PhaseOk(h, s, PhaseOf(s, 0));
    PhaseGrows(h, s, t, PhaseOf(s, 0));
    WorkerFrame(h, s, 0, t);
    forall v, w ensures Alone(t, v, w) {
      assert Alone(s, v, w);
    }
    forall k ensures ExecutionOk(t, k) {
      assert ExecutionOk(s, k);
    }
    forall i ensures EffectOk(h, t, i) {
      assert i < |s.effects| ==> EffectOk(h, t, i);
    }
  }

  /** The reservation is what makes a worker the only one who may call with its key. */
  lemma ReserveKeeps(h: Payload -> string, s: System, w: WorkerId)
    requires Inv(h, s) && PhaseOf(s, w).Verified?
    ensures var t := DoReserve(s, w, PhaseOf(s, w).job, PhaseOf(s, w).key); Inv(h, t) && Grows(s, t)
  {
    var job, key := PhaseOf(s, w).job, PhaseOf(s, w).key;
    assert PhaseOk(h, s, PhaseOf(s, w));
    if key in s.executions {
      MoveKeeps(h, s, w, Reconciling(job, key));
    } else {
      var t := DoReserve(s, w, job, key);
      assert ExecutionOk(s, key);
      WorkerFrame(h, s, w, t);
      forall v, u ensures Alone(t, v, u) {
        assert Alone(s, v, u);
        assert PhaseOk(h, s, PhaseOf(s, v)) && PhaseOk(h, s, PhaseOf(s, u));
      }
      forall k ensures ExecutionOk(t, k) {
        assert ExecutionOk(s, k);
      }
      forall i ensures EffectOk(h, t, i) {
        assert i < |s.effects| ==> EffectOk(h, t, i);
      }
    }
  }

  lemma NewKeyKeepsDistinct(effects: seq<Effect>, e: Effect)
    requires Distinct(EffectKeys(effects)) && forall i :: 0 <= i < |effects| ==> effects[i].key != e.key
    ensures Distinct(EffectKeys(effects + [e]))
  {
    assert EffectKeys(effects + [e]) == EffectKeys(effects) + [e.key];
  }

  lemma CallKeeps(h: Payload -> string, s: System, w: WorkerId, landed: bool, reply: Reply)
    requires Inv(h, s) && PhaseOf(s, w).Reserved? && (reply == Answered(OutSucceeded) ==> landed)
    ensures var t := DoCall(s, w, PhaseOf(s, w).job, PhaseOf(s, w).key, landed, reply); Inv(h, t) && Grows(s, t)
  {
    var job, key := PhaseOf(s, w).job, PhaseOf(s, w).key;
    assert PhaseOk(h, s, PhaseOf(s, w));
    var t := DoCall(s, w, job, key, landed, reply);
    if landed {
      assert t.effects[|s.effects|].key == key;
    }
    forall v | v != w && PhaseOf(s, v).Reserved? ensures PhaseOf(s, v).key !in t.calls[|s.calls|..] {
      assert Alone(s, v, w);
    }
    WorkerFrame(h, s, w, t);
    forall v, u ensures Alone(t, v, u) {
      assert Alone(s, v, u);
    }
    forall k ensures ExecutionOk(t, k) {
      assert ExecutionOk(s, k);
      if Landed(s, k) {
        LandedGrows(s, t, k);
      }
    }
    forall i ensures EffectOk(h, t, i) {
      assert i < |s.effects| ==> EffectOk(h, t, i);
    }
    forall i | 0 <= i < |s.effects| ensures s.effects[i].key != key {
      assert EffectOk(h, s, i);
    }
    NewKeyKeepsDistinct(s.effects, Effect(job.id, key, job.payload));
  }

  lemma NextKeeps(h: Payload -> string, s: System, e: Event)
    requires Inv(h, s)
    ensures Inv(h, Next(h, s, e)) && Grows(s, Next(h, s, e))
  {
    if Enabled(s, e) {
      match e {
        case Tick(_) => TickKeeps(h, s, Next(h, s, e));
        case Propose(id, requester, payload, lifetime) => ProposeKeeps(h, s, id, requester, payload, lifetime);
        case TamperPayload(id, payload) => TamperKeeps(h, s, id, payload, s.actions[id].hash);
        case TamperHash(id, hash) => TamperKeeps(h, s, id, s.actions[id].payload, hash);
        case Decide(id, approver, approved, presented) => DecideKeeps(h, s, id, approver, approved, presented);
        case Claim(w, id, lease) => ClaimKeeps(h, s, w, id, lease);
        case Verify(w) => VerifyKeeps(h, s, w);
        case Reserve(w) => ReserveKeeps(h, s, w);
        case Call(w, landed, reply) => CallKeeps(h, s, w, landed, reply);
        case Lookup(w, observed) => LookupKeeps(h, s, w, observed);
        case Fault(w) => FaultKeeps(h, s, w);
        case Record(w) => RecordKeeps(h, s, w);
        case Refuse(w) => RefuseKeeps(h, s, w);
        case Crash(w) => MoveKeeps(h, s, w, Idle);
      }
    }
  }

  lemma TickKeeps(h: Payload -> string, s: System, t: System)
    requires Inv(h, s) && t == s.(now := t.now)
    ensures Inv(h, t) && Grows(s, t)
  {
    forall id ensures RowOk(t, id) {
      assert RowOk(s, id);
      RowFrame(s, t, id);
    }
    TablesFrame(h, s, t);
  }

  lemma ClaimKeeps(h: Payload -> string, s: System, w: WorkerId, id: ActionId, lease: nat)
    requires Inv(h, s) && Claimable(s, id) && id in s.actions
    ensures var t := Move(Lease(s, id, lease), w, HasJob(ReadJob(Lease(s, id, lease), id)));
      Inv(h, t) && Grows(s, t)
  {
    var t := Lease(s, id, lease);
    LeaseKeeps(h, s, id, lease);
    MoveKeeps(h, t, w, HasJob(ReadJob(t, id)));
    GrowsTransitive(s, t, Move(t, w, HasJob(ReadJob(t, id))));
  }

  lemma VerifyKeeps(h: Payload -> string, s: System, w: WorkerId)
    requires Inv(h, s) && Enabled(s, Verify(w))
    ensures Inv(h, Apply(h, s, Verify(w))) && Grows(s, Apply(h, s, Verify(w)))
  {
    var job := PhaseOf(s, w).job;
    assert PhaseOk(h, s, PhaseOf(s, w));
    match Checks(h, s, job) {
      case Ok(key) => MoveKeeps(h, s, w, Verified(job, key));
      case Err(_) => MoveKeeps(h, s, w, Refusing(job));
    }
  }

  lemma LookupKeeps(h: Payload -> string, s: System, w: WorkerId, observed: Option<Outcome>)
    requires Inv(h, s) && Enabled(s, Lookup(w, observed))
    ensures Inv(h, Apply(h, s, Lookup(w, observed))) && Grows(s, Apply(h, s, Lookup(w, observed)))
  {
    var p := PhaseOf(s, w);
    assert PhaseOk(h, s, p);
    MoveKeeps(h, s, w, Recording(p.job, p.key, if observed.Some? then observed.value else OutFailed));
  }

  lemma FaultKeeps(h: Payload -> string, s: System, w: WorkerId)
    requires Inv(h, s) && !PhaseOf(s, w).Idle?
    ensures Inv(h, Move(s, w, Refusing(PhaseOf(s, w).job))) && Grows(s, Move(s, w, Refusing(PhaseOf(s, w).job)))
  {
    assert PhaseOk(h, s, PhaseOf(s, w));
    MoveKeeps(h, s, w, Refusing(PhaseOf(s, w).job));
  }

  lemma RecordKeeps(h: Payload -> string, s: System, w: WorkerId)
    requires Inv(h, s) && PhaseOf(s, w).Recording?
    ensures var p := PhaseOf(s, w);
      var t := Move(DoRecord(s, p.job, p.key, p.outcome), w, Idle);
      Inv(h, t) && Grows(s, t)
  {
    var p := PhaseOf(s, w);
    assert PhaseOk(h, s, p);
    var t := s.(executions := s.executions[p.key := p.outcome]);
    OutcomeKeeps(h, s, p.key, p.outcome);
    var u := DoRecord(s, p.job, p.key, p.outcome);
    CloseKeeps(h, t, p.job, JobStateAfter(p.job, p.outcome), ActionStateAfter(p.job, p.outcome),
               30 * Pow2(p.job.attempts));
    MoveKeeps(h, u, w, Idle);
    GrowsTransitive(s, t, u);
    GrowsTransitive(s, u, Move(u, w, Idle));
  }

  lemma RefuseKeeps(h: Payload -> string, s: System, w: WorkerId)
    requires Inv(h, s) && PhaseOf(s, w).Refusing?
    ensures var t := Move(Close(s, PhaseOf(s, w).job, JobFailed, Failed, 0), w, Idle);
      Inv(h, t) && Grows(s, t)
  {
    var p := PhaseOf(s, w);
    assert PhaseOk(h, s, p);
    var u := Close(s, p.job, JobFailed, Failed, 0);
    CloseKeeps(h, s, p.job, JobFailed, Failed, 0);
    MoveKeeps(h, u, w, Idle);
    GrowsTransitive(s, u, Move(u, w, Idle));
  }

  lemma EmptyOk(h: Payload -> string)
    ensures Inv(h, EMPTY)
  {
  }

  lemma {:induction false} RunKeeps(h: Payload -> string, s: System, events: seq<Event>)
    requires Inv(h, s)
    ensures Inv(h, After(h, s, events)) && Grows(s, After(h, s, events))
    decreases |events|
  {
    if events == [] {
      forall id ensures RowGrows(s, s, id) {
      }
    } else {
      NextKeeps(h, s, events[0]);
      var t := Next(h, s, events[0]);
      RunKeeps(h, t, events[1..]);
      GrowsTransitive(s, t, After(h, t, events[1..]));
    }
  }

  // ---------------------------------------------------------------------------------------------
  // Only what was approved, and once
  // ---------------------------------------------------------------------------------------------

  function HashWith(sha: string -> string): Payload -> string {
    p => PayloadHash(sha, p)
  }

  /** The state after a run from the empty database, with SHA-256 over the canonical text as the hash. */
  function Reached(sha: string -> string, events: seq<Event>): System {
    After(HashWith(sha), EMPTY, events)
  }

  /**
   Every effect carries a payload whose hash somebody other than the requester approved, so any
   payload with the approved hash means the same as the one the provider acted on.
   */
  lemma EffectsAreApproved(sha: string -> string, events: seq<Event>, i: nat)
    requires CollisionFree(sha) && i < |Reached(sha, events).effects|
    ensures var s := Reached(sha, events);
      var e := s.effects[i];
      && e.id in s.actions && e.id in s.decisions
      && s.decisions[e.id].approved && s.decisions[e.id].approver != s.actions[e.id].requester
      && PayloadHash(sha, e.payload) == s.decisions[e.id].approvedHash
      && forall p: Payload :: PayloadHash(sha, p) == s.decisions[e.id].approvedHash ==> Meaning(p) == Meaning(e.payload)
  {
    var h := HashWith(sha);
    var s := Reached(sha, events);
    EmptyOk(h);
    RunKeeps(h, EMPTY, events);
    assert EffectOk(h, s, i);
    var e := s.effects[i];
    forall p: Payload | PayloadHash(sha, p) == s.decisions[e.id].approvedHash ensures Meaning(p) == Meaning(e.payload) {
      HashBindsMeaning(sha, p, e.payload);
    }
  }

  /** The provider is called at most once with any key, and acts at most once for any action. */
  lemma AtMostOneEffect(h: Payload -> string, events: seq<Event>, i: nat, j: nat)
    ensures var s := After(h, EMPTY, events);
      && Distinct(s.calls)
      && (i < j < |s.effects| ==> s.effects[i].id != s.effects[j].id)
  {
    EmptyOk(h);
    RunKeeps(h, EMPTY, events);
    var s := After(h, EMPTY, events);
    if i < j < |s.effects| {
      assert EffectOk(h, s, i) && EffectOk(h, s, j);
      assert EffectKeys(s.effects)[i] != EffectKeys(s.effects)[j];
    }
  }

  function FirstColon(k: string): nat {
    if |k| == 0 || k[0] == ':' then 0 else 1 + FirstColon(k[1..])
  }

  lemma {:induction false} FirstColonOfKey(a: ActionId, rest: string)
    requires ':' !in a
    ensures FirstColon(a + [':'] + rest) == |a|
  {
    if |a| == 0 {
      assert a + [':'] + rest == [':'] + rest;
    } else {
      assert (a + [':'] + rest)[1..] == a[1..] + [':'] + rest;
      FirstColonOfKey(a[1..], rest);
    }
  }

  lemma KeyNamesAction(a: ActionId, b: ActionId, x: string, y: string)
    requires ':' !in a && ':' !in b && IdempotencyKey(a, x) == IdempotencyKey(b, y)
    ensures a == b
  {
    var k := IdempotencyKey(a, x);
    FirstColonOfKey(a, k[|a| + 1..]);
    assert k == a + [':'] + k[|a| + 1..];
    FirstColonOfKey(b, k[|b| + 1..]);
    assert k == b + [':'] + k[|b| + 1..];
    assert a == k[..|a|];
  }

  /** SUCCEEDED is only ever said of an action the provider acted on, exactly once. */
  lemma SucceededMeansDone(h: Payload -> string, events: seq<Event>, id: ActionId)
    requires var s := After(h, EMPTY, events); id in s.actions && s.actions[id].state == Succeeded
    ensures var s := After(h, EMPTY, events);
      exists i :: 0 <= i < |s.effects| && s.effects[i].id == id
        && forall j :: 0 <= j < |s.effects| && s.effects[j].id == id ==> i == j
  {
    EmptyOk(h);
    RunKeeps(h, EMPTY, events);
    var s := After(h, EMPTY, events);
    assert RowOk(s, id);
    var key := IdempotencyKey(id, s.decisions[id].approvedHash);
    var i :| 0 <= i < |s.effects| && s.effects[i].key == key;
    assert EffectOk(h, s, i);
    assert RowOk(s, s.effects[i].id);
    KeyNamesAction(id, s.effects[i].id, s.decisions[id].approvedHash, h(s.effects[i].payload));
    forall j | 0 <= j < |s.effects| && s.effects[j].id == id ensures i == j {
      AtMostOneEffect(h, events, i, j);
      AtMostOneEffect(h, events, j, i);
    }
  }

  /** A rejected action is never executed, whatever happens to its row. */
  lemma RejectedNeverExecutes(h: Payload -> string, events: seq<Event>, id: ActionId)
    requires var s := After(h, EMPTY, events); id in s.decisions && !s.decisions[id].approved
    ensures var s := After(h, EMPTY, events);
      forall i :: 0 <= i < |s.effects| ==> s.effects[i].id != id
  {
    EmptyOk(h);
    RunKeeps(h, EMPTY, events);
    var s := After(h, EMPTY, events);
    forall i | 0 <= i < |s.effects| ensures s.effects[i].id != id {
      assert EffectOk(h, s, i);
    }
  }

  // ---------------------------------------------------------------------------------------------
  // Tampering with the payload alone cannot change what is executed
  // ---------------------------------------------------------------------------------------------

  predicate Intact(h: Payload -> string, s: System, id: ActionId) {
    && (id in s.actions ==> id in s.proposals && s.actions[id].hash == h(s.proposals[id]))
    && (id in s.decisions ==> id in s.proposals && s.decisions[id].approvedHash == h(s.proposals[id]))
  }

  predicate TouchesHashes(e: Event) {
    e.Propose? || e.TamperPayload? || e.TamperHash? || e.Decide?
  }

  lemma NextSameHashes(h: Payload -> string, s: System, e: Event, id: ActionId)
    requires !TouchesHashes(e)
    ensures var t := Next(h, s, e);
      && t.decisions == s.decisions && t.proposals == s.proposals && t.actions.Keys == s.actions.Keys
      && (id in s.actions ==> t.actions[id].hash == s.actions[id].hash)
  {
  }

  lemma NextKeepsIntact(h: Payload -> string, s: System, e: Event)
    requires Inv(h, s) && !e.TamperHash? && forall id :: Intact(h, s, id)
    ensures forall id :: Intact(h, Next(h, s, e), id)
  {
    var t := Next(h, s, e);
    forall id ensures Intact(h, t, id) {
      assert Intact(h, s, id) && RowOk(s, id);
      if !TouchesHashes(e) {
        NextSameHashes(h, s, e, id);
      }
    }
  }

  lemma {:induction false} RunKeepsIntact(h: Payload -> string, s: System, events: seq<Event>)
    requires Inv(h, s) && forall id :: Intact(h, s, id)
    requires forall i :: 0 <= i < |events| ==> !events[i].TamperHash?
    ensures forall id :: Intact(h, After(h, s, events), id)
    decreases |events|
  {
    if events != [] {
      NextKeeps(h, s, events[0]);
      NextKeepsIntact(h, s, events[0]);
      RunKeepsIntact(h, Next(h, s, events[0]), events[1..]);
    }
  }

  /** As long as nobody rewrites a stored hash, what is executed means what was proposed. */
  lemma ExecutesWhatWasProposed(sha: string -> string, events: seq<Event>, i: nat)
    requires CollisionFree(sha) && forall k :: 0 <= k < |events| ==> !events[k].TamperHash?
    requires i < |Reached(sha, events).effects|
    ensures var s := Reached(sha, events);
      var e := s.effects[i];
      e.id in s.proposals && Meaning(e.payload) == Meaning(s.proposals[e.id])
  {
    var h := HashWith(sha);
    var s := Reached(sha, events);
    EmptyOk(h);
    RunKeeps(h, EMPTY, events);
    RunKeepsIntact(h, EMPTY, events);
    assert EffectOk(h, s, i) && Intact(h, s, s.effects[i].id);
    EffectsAreApproved(sha, events, i);
    var p: Payload := s.proposals[s.effects[i].id];
    assert PayloadHash(sha, p) == s.decisions[s.effects[i].id].approvedHash;
  }

  // ---------------------------------------------------------------------------------------------
  // What the protocol does not do
  // ---------------------------------------------------------------------------------------------

  /** The key is taken and nobody is between reserving it and calling with it. */
  ghost predicate Spent(s: System, key: Key) {
    key in s.executions && forall w :: !(PhaseOf(s, w).Reserved? && PhaseOf(s, w).key == key)
  }

  lemma NextQuiet(h: Payload -> string, s: System, e: Event)
    requires !e.Reserve? && !e.Call?
    ensures var t := Next(h, s, e);
      && t.effects == s.effects && s.executions.Keys <= t.executions.Keys
      && forall w :: PhaseOf(t, w).Reserved? ==> PhaseOf(t, w) == PhaseOf(s, w)
  {
  }

  lemma ReserveKeepsSpent(s: System, w: WorkerId, job: ClaimedJob, other: Key, key: Key)
    requires Spent(s, key)
    ensures Spent(DoReserve(s, w, job, other), key)
  {
    var t := DoReserve(s, w, job, other);
    forall v ensures !(PhaseOf(t, v).Reserved? && PhaseOf(t, v).key == key) {
      assert !(PhaseOf(s, v).Reserved? && PhaseOf(s, v).key == key);
    }
  }

  lemma CallKeepsSpent(s: System, w: WorkerId, job: ClaimedJob, other: Key, landed: bool, reply: Reply, key: Key)
    requires Spent(s, key) && other != key
    ensures Spent(DoCall(s, w, job, other, landed, reply), key)
    ensures !Landed(s, key) ==> !Landed(DoCall(s, w, job, other, landed, reply), key)
  {
    var t := DoCall(s, w, job, other, landed, reply);
    forall v ensures !(PhaseOf(t, v).Reserved? && PhaseOf(t, v).key == key) {
      assert !(PhaseOf(s, v).Reserved? && PhaseOf(s, v).key == key);
    }
  }

  lemma NextKeepsSpent(h: Payload -> string, s: System, e: Event, key: Key)
    requires Spent(s, key)
    ensures Spent(Next(h, s, e), key)
    ensures !Landed(s, key) ==> !Landed(Next(h, s, e), key)
  {
    if e.Reserve? && Enabled(s, e) {
      ReserveKeepsSpent(s, e.w, PhaseOf(s, e.w).job, PhaseOf(s, e.w).key, key);
    } else if e.Call? && Enabled(s, e) {
      assert !(PhaseOf(s, e.w).Reserved? && PhaseOf(s, e.w).key == key);
      CallKeepsSpent(s, e.w, PhaseOf(s, e.w).job, PhaseOf(s, e.w).key, e.landed, e.reply, key);
    } else if !e.Reserve? && !e.Call? {
      NextQuiet(h, s, e);
    }
  }

  lemma {:induction false} SpentForever(h: Payload -> string, s: System, events: seq<Event>, key: Key)
    requires Spent(s, key)
    ensures Spent(After(h, s, events), key)
    ensures !Landed(s, key) ==> !Landed(After(h, s, events), key)
    decreases |events|
  {
    if events != [] {
      NextKeepsSpent(h, s, events[0], key);
      SpentForever(h, Next(h, s, events[0]), events[1..], key);
    }
  }

  /**
   A provider failure is recorded as retryable, and the retry can never reach the provider: once
   the outcome FAILED is recorded with nothing landed, nothing ever lands under that key.
   */
  lemma RetryNeverReachesProvider(h: Payload -> string, before: seq<Event>, w: WorkerId, events: seq<Event>)
    requires var s := After(h, EMPTY, before);
      PhaseOf(s, w).Recording? && PhaseOf(s, w).outcome == OutFailed && !Landed(s, PhaseOf(s, w).key)
    requires var s := After(h, EMPTY, before);
      forall v :: !(PhaseOf(s, v).Reserved? && PhaseOf(s, v).key == PhaseOf(s, w).key)
    ensures var s := After(h, EMPTY, before);
      !Landed(After(h, s, [Record(w)] + events), PhaseOf(s, w).key)
  {
    var s := After(h, EMPTY, before);
    EmptyOk(h);
    RunKeeps(h, EMPTY, before);
    assert PhaseOk(h, s, PhaseOf(s, w));
    SpentForever(h, s, [Record(w)] + events, PhaseOf(s, w).key);
  }

  /** The job was leased for the last time and no worker holds it any more. */
  ghost predicate Orphaned(s: System, id: ActionId) {
    && id in s.jobs && id in s.decisions && id in s.actions
    && s.jobs[id].attempts >= MAX_ATTEMPTS
    && s.actions[id].state != PendingApproval
    && forall w :: PhaseOf(s, w).Idle? || PhaseOf(s, w).job.id != id
  }

  predicate Touches(s: System, e: Event, id: ActionId) {
    match e
    case Claim(_, x, _) => x == id
    case Decide(x, _, _, _) => x == id
    case Record(w) => !PhaseOf(s, w).Idle? && PhaseOf(s, w).job.id == id
    case Refuse(w) => !PhaseOf(s, w).Idle? && PhaseOf(s, w).job.id == id
    case _ => false
  }

  lemma RowUntouched(h: Payload -> string, s: System, e: Event, id: ActionId)
    requires id in s.jobs && id in s.decisions && id in s.actions && !Touches(s, e, id)
    ensures var t := Next(h, s, e);
      && id in t.jobs && id in t.decisions && id in t.actions
      && t.jobs[id] == s.jobs[id] && t.actions[id].state == s.actions[id].state
  {
  }

  lemma StillWithoutJob(h: Payload -> string, s: System, e: Event, w: WorkerId, id: ActionId)
    requires PhaseOf(s, w).Idle? || PhaseOf(s, w).job.id != id
    requires e.Claim? ==> e.id != id
    ensures var p := PhaseOf(Next(h, s, e), w); p.Idle? || p.job.id != id
  {
  }

  lemma NextKeepsOrphan(h: Payload -> string, s: System, e: Event, id: ActionId)
    requires Orphaned(s, id)
    ensures var t := Next(h, s, e);
      Orphaned(t, id) && t.jobs[id] == s.jobs[id] && t.actions[id].state == s.actions[id].state
  {
    if Enabled(s, e) {
      var t := Next(h, s, e);
      forall w ensures PhaseOf(t, w).Idle? || PhaseOf(t, w).job.id != id {
        assert PhaseOf(s, w).Idle? || PhaseOf(s, w).job.id != id;
        StillWithoutJob(h, s, e, w, id);
      }
      if e.Record? || e.Refuse? {
        assert PhaseOf(s, e.w).Idle? || PhaseOf(s, e.w).job.id != id;
      }
      RowUntouched(h, s, e, id);
    }
  }

  /** A worker that dies on the third attempt leaves the job and the action where they are, for good. */
  lemma {:induction false} OrphanForever(h: Payload -> string, s: System, events: seq<Event>, id: ActionId)
    requires Orphaned(s, id)
    ensures var t := After(h, s, events);
      Orphaned(t, id) && t.jobs[id] == s.jobs[id] && t.actions[id].state == s.actions[id].state
    decreases |events|
  {
    if events != [] {
      NextKeepsOrphan(h, s, events[0], id);
      OrphanForever(h, Next(h, s, events[0]), events[1..], id);
    }
  }

  predicate Final(state: ActionState) {
    state in {Succeeded, Failed, Rejected, Cancelled}
  }

  /** The moves an event makes on an action's state, and which of them the published map has. */
  lemma StateMoves(h: Payload -> string, s: System, e: Event, id: ActionId)
    requires Inv(h, s) && id in s.actions
    ensures var t := Next(h, s, e);
      && id in t.actions
      && var from, to := s.actions[id].state, t.actions[id].state;
         && (from != to ==> !Final(from) && from in {PendingApproval, Approved, Executing})
         && (from != to ==> (CanTransition(from, to) <==> from != Approved))
  {
    assert RowOk(s, id);
  }

  // ---------------------------------------------------------------------------------------------
  // The worker itself
  // ---------------------------------------------------------------------------------------------

  /** What the outside does to one turn of the loop. */
  datatype Script = Script(landed: bool, reply: Reply, lookupRaises: bool, verifyRaises: bool) {
    predicate Honest() {
      reply == Answered(OutSucceeded) ==> landed
    }
  }

  /** The provider's answer when it is asked whether a call landed. */
  function Observed(landed: bool): Option<Outcome> {
    if landed then Some(OutSucceeded) else None
  }

  // What the worker's methods do, step by step.

  function Looked(h: Payload -> string, s: System, w: WorkerId, key: Key, raises: bool): System {
    if raises then Next(h, s, Fault(w))
    else Next(h, Next(h, s, Lookup(w, Observed(Landed(s, key)))), Record(w))
  }

  function Called(h: Payload -> string, s: System, w: WorkerId, key: Key, script: Script): System {
    var t := Next(h, s, Call(w, script.landed, script.reply));
    match script.reply
    case Raised => t
    case Answered(outcome) => if outcome == OutAmbiguous then Looked(h, t, w, key, script.lookupRaises) else Next(h, t, Record(w))
  }

  predicate CallRaises(script: Script) {
    script.reply.Raised? || (script.reply == Answered(OutAmbiguous) && script.lookupRaises)
  }

  function Executed(h: Payload -> string, s: System, w: WorkerId, key: Key, script: Script): System {
    var t := Next(h, s, Reserve(w));
    if key in s.executions then Looked(h, t, w, key, script.lookupRaises) else Called(h, t, w, key, script)
  }

  predicate ExecuteRaises(s: System, key: Key, script: Script) {
    if key in s.executions then script.lookupRaises else CallRaises(script)
  }

  /** Verify, execute, and refuse whatever does not get that far. */
  function Processed(h: Payload -> string, s: System, w: WorkerId, job: ClaimedJob, script: Script): System {
    if script.verifyRaises then Next(h, Next(h, s, Fault(w)), Refuse(w))
    else
      var t := Next(h, s, Verify(w));
      match Checks(h, s, job)
      case Err(_) => Next(h, t, Refuse(w))
      case Ok(key) =>
        if ExecuteRaises(t, key, script) then Next(h, Executed(h, t, w, key, script), Refuse(w))
        else Executed(h, t, w, key, script)
  }

  // The same steps as a run.

  function LookupEvents(w: WorkerId, landed: bool, raises: bool): seq<Event> {
    if raises then [Fault(w)] else [Lookup(w, Observed(landed)), Record(w)]
  }

  function CallEvents(w: WorkerId, script: Script, landed: bool): seq<Event> {
    [Call(w, script.landed, script.reply)]
    + match script.reply
      case Raised => []
      case Answered(outcome) =>
        if outcome == OutAmbiguous then LookupEvents(w, landed, script.lookupRaises) else [Record(w)]
  }

  function ExecuteEvents(h: Payload -> string, s: System, w: WorkerId, key: Key, script: Script): seq<Event> {
    var t := Next(h, s, Reserve(w));
    [Reserve(w)]
    + if key in s.executions then LookupEvents(w, Landed(t, key), script.lookupRaises)
      else CallEvents(w, script, Landed(Next(h, t, Call(w, script.landed, script.reply)), key))
  }

  function JobEvents(h: Payload -> string, s: System, w: WorkerId, job: ClaimedJob, script: Script): seq<Event> {
    if script.verifyRaises then [Fault(w), Refuse(w)]
    else
      var t := Next(h, s, Verify(w));
      match Checks(h, s, job)
      case Err(_) => [Verify(w), Refuse(w)]
      case Ok(key) =>
        [Verify(w)] + ExecuteEvents(h, t, w, key, script) + if ExecuteRaises(t, key, script) then [Refuse(w)] else []
  }

  lemma FirstEvent(h: Payload -> string, s: System, e: Event, rest: seq<Event>)
    ensures After(h, s, [e] + rest) == After(h, Next(h, s, e), rest)
  {
    assert ([e] + rest)[1..] == rest;
  }

  lemma LastEvent(h: Payload -> string, s: System, first: seq<Event>, e: Event)
    ensures After(h, s, first + [e]) == Next(h, After(h, s, first), e)
  {
    AfterConcat(h, s, first, [e]);
    OneEvent(h, After(h, s, first), e);
  }

  lemma LookedIsARun(h: Payload -> string, s: System, w: WorkerId, key: Key, raises: bool)
    ensures After(h, s, LookupEvents(w, Landed(s, key), raises)) == Looked(h, s, w, key, raises)
  {
    OneEvent(h, s, Fault(w));
    TwoEvents(h, s, Lookup(w, Observed(Landed(s, key))), Record(w));
  }

  lemma CalledIsARun(h: Payload -> string, s: System, w: WorkerId, key: Key, script: Script)
    ensures var t := Next(h, s, Call(w, script.landed, script.reply));
      After(h, s, CallEvents(w, script, Landed(t, key))) == Called(h, s, w, key, script)
  {
    var call := Call(w, script.landed, script.reply);
    var t := Next(h, s, call);
    match script.reply {
      case Raised => OneEvent(h, s, call);
      case Answered(outcome) =>
        if outcome == OutAmbiguous {
          FirstEvent(h, s, call, LookupEvents(w, Landed(t, key), script.lookupRaises));
          LookedIsARun(h, t, w, key, script.lookupRaises);
        } else {
          TwoEvents(h, s, call, Record(w));
        }
    }
  }

  lemma ExecutedIsARun(h: Payload -> string, s: System, w: WorkerId, key: Key, script: Script)
    ensures After(h, s, ExecuteEvents(h, s, w, key, script)) == Executed(h, s, w, key, script)
  {
    var t := Next(h, s, Reserve(w));
    if key in s.executions {
      FirstEvent(h, s, Reserve(w), LookupEvents(w, Landed(t, key), script.lookupRaises));
      LookedIsARun(h, t, w, key, script.lookupRaises);
    } else {
      var landed := Landed(Next(h, t, Call(w, script.landed, script.reply)), key);
      FirstEvent(h, s, Reserve(w), CallEvents(w, script, landed));
      CalledIsARun(h, t, w, key, script);
    }
  }

  /** What a worker does with a claimed job is a run of the protocol. */
  lemma ProcessedIsARun(h: Payload -> string, s: System, w: WorkerId, job: ClaimedJob, script: Script)
    ensures After(h, s, JobEvents(h, s, w, job, script)) == Processed(h, s, w, job, script)
  {
    if script.verifyRaises {
      TwoEvents(h, s, Fault(w), Refuse(w));
    } else if Checks(h, s, job).Err? {
      TwoEvents(h, s, Verify(w), Refuse(w));
    } else {
      var key, t := Checks(h, s, job).value, Next(h, s, Verify(w));
      var steps := ExecuteEvents(h, t, w, key, script);
      FirstEvent(h, s, Verify(w), steps);
      ExecutedIsARun(h, t, w, key, script);
      LastEvent(h, s, [Verify(w)] + steps, Refuse(w));
      assert [Verify(w)] + steps + [] == [Verify(w)] + steps;
    }
  }

  /** One turn: the job claimed is taken all the way, and nothing happens if none was. */
  function TurnDone(h: Payload -> string, s: System, w: WorkerId, lease: nat, taken: Option<ActionId>, script: Script): System {
    match taken
    case None => s
    case Some(id) =>
      var t := Next(h, s, Claim(w, id, lease));
      if PhaseOf(t, w).HasJob? then Processed(h, t, w, PhaseOf(t, w).job, script) else t
  }

  function TurnEvents(h: Payload -> string, s: System, w: WorkerId, lease: nat, taken: Option<ActionId>, script: Script)
    : seq<Event>
  {
    match taken
    case None => []
    case Some(id) =>
      var t := Next(h, s, Claim(w, id, lease));
      [Claim(w, id, lease)] + if PhaseOf(t, w).HasJob? then JobEvents(h, t, w, PhaseOf(t, w).job, script) else []
  }

  lemma TurnIsARun(h: Payload -> string, s: System, w: WorkerId, lease: nat, taken: Option<ActionId>, script: Script)
    ensures After(h, s, TurnEvents(h, s, w, lease, taken, script)) == TurnDone(h, s, w, lease, taken, script)
  {
    if taken.Some? {
      var e := Claim(w, taken.value, lease);
      var t := Next(h, s, e);
      if PhaseOf(t, w).HasJob? {
        FirstEvent(h, s, e, JobEvents(h, t, w, PhaseOf(t, w).job, script));
        ProcessedIsARun(h, t, w, PhaseOf(t, w).job, script);
      } else {
        FirstEvent(h, s, e, []);
      }
    }
  }

  /** The claiming query: a job that is ready, none ready for longer; nothing only if none is ready. */
  ghost predicate Chosen(s: System, taken: Option<ActionId>) {
    match taken
    case None => forall id :: id in s.actions ==> !Claimable(s, id)
    case Some(id) =>
      && Claimable(s, id) && id in s.actions
      && forall other :: Claimable(s, other) && other in s.actions ==> s.jobs[id].availableAt <= s.jobs[other].availableAt
  }

  /** What the outside does around one turn: what happens elsewhere before it, and how the turn goes. */
  datatype Outside = Outside(elsewhere: seq<Event>, script: Script)

  /** Where the loop stands when it looks for its job on turn `n`. */
  function BeforeTurn(h: Payload -> string, s: System, w: WorkerId, lease: nat, taken: seq<Option<ActionId>>,
                      outside: seq<Outside>, n: nat): System
    requires n <= |taken| && n < |outside|
    decreases n, 1
  {
    After(h, Looped(h, s, w, lease, taken, outside, n), outside[n].elsewhere)
  }

  /** Where the loop stands after `n` turns. */
  function Looped(h: Payload -> string, s: System, w: WorkerId, lease: nat, taken: seq<Option<ActionId>>,
                  outside: seq<Outside>, n: nat): System
    requires n <= |taken| && n <= |outside|
    decreases n, 0
  {
    if n == 0 then s
    else TurnDone(h, BeforeTurn(h, s, w, lease, taken, outside, n - 1), w, lease, taken[n - 1], outside[n - 1].script)
  }

  lemma {:induction false} LoopedSoFar(h: Payload -> string, s: System, w: WorkerId, lease: nat, taken: seq<Option<ActionId>>,
                                       id: Option<ActionId>, outside: seq<Outside>, n: nat)
    requires n <= |taken| < |outside|
    ensures Looped(h, s, w, lease, taken + [id], outside, n) == Looped(h, s, w, lease, taken, outside, n)
    ensures BeforeTurn(h, s, w, lease, taken + [id], outside, n) == BeforeTurn(h, s, w, lease, taken, outside, n)
  {
    if n > 0 {
      LoopedSoFar(h, s, w, lease, taken, id, outside, n - 1);
    }
  }

  /** One worker: its job processor, its loop, and the tables and provider they act on. */
  class Worker {
    const me: WorkerId
    const lease: nat
    const h: Payload -> string
    var now: int
    var actions: map<ActionId, Action>
    var decisions: map<ActionId, Decision>
    var jobs: map<ActionId, Job>
    var executions: map<Key, Outcome>
    var calls: seq<Key>
    var effects: seq<Effect>
    var others: map<WorkerId, Phase>
    var proposals: map<ActionId, Payload>

    constructor (me: WorkerId, lease: nat, h: Payload -> string, s: System)
      requires PhaseOf(s, me).Idle?
      ensures this.me == me && this.lease == lease && this.h == h
      ensures Sys(PhaseOf(s, me)) == s.(workers := s.workers[me := Idle])
    {
      this.me, this.lease, this.h := me, lease, h;
      now, actions, decisions, jobs := s.now, s.actions, s.decisions, s.jobs;
      executions, calls, effects := s.executions, s.calls, s.effects;
      others, proposals := s.workers, s.proposals;
    }

    /** The whole system, with this worker in the given phase. */
    function Sys(p: Phase): System
      reads this
    {
      System(now, actions, decisions, jobs, executions, others[me := p], calls, effects, proposals)
    }

    predicate Ready(id: ActionId)
      reads this
    {
      Claimable(Sys(Idle), id) && id in actions
    }

    /** The job the claiming query orders first. */
    method Oldest() returns (best: Option<ActionId>)
      ensures Chosen(Sys(Idle), best)
      ensures forall id :: id in jobs && id in actions && jobs[id].attempts < 3
                           && ((jobs[id].state == JobQueued && jobs[id].availableAt <= now)
                               || (jobs[id].state == JobExecuting && jobs[id].leaseExpires < now)) ==>
                best.Some? && best.value in jobs && jobs[best.value].availableAt <= jobs[id].availableAt
    {
      best := None;
      var todo := jobs.Keys;
      while todo != {}
        invariant todo <= jobs.Keys
        invariant best.Some? ==> Ready(best.value)
        invariant forall id :: id in jobs && id !in todo && Ready(id) ==>
          best.Some? && jobs[best.value].availableAt <= jobs[id].availableAt
      {
        var id :| id in todo;
        todo := todo - {id};
        if Ready(id) && (best.None? || jobs[id].availableAt < jobs[best.value].availableAt) {
          best := Some(id);
        }
      }
      assert forall id :: Ready(id) ==> id in jobs;
    }

    method TakeJob() returns (job: Option<ClaimedJob>)
      modifies `jobs
      ensures Chosen(old(Sys(Idle)), if job.Some? then Some(job.value.id) else None)
      ensures job.None? ==> jobs == old(jobs)
      ensures job.Some? ==> Sys(HasJob(job.value)) == Next(h, old(Sys(Idle)), Claim(me, job.value.id, lease))
    {
      var oldest := Oldest();
      match oldest {
        case None =>
          job := None;
        case Some(id) =>
          var j := jobs[id];
          jobs := jobs[id := Job(JobExecuting, j.attempts + 1, now + lease, j.availableAt)];
          var a := actions[id];
          job := Some(ClaimedJob(id, a.payload, a.hash, a.state, a.expiresAt, a.requester, j.attempts + 1));
          assert others[me := Idle][me := HasJob(job.value)] == others[me := HasJob(job.value)];
      }
    }

    /** Every pre-execution check, in order; the first that fails refuses. */
    method Check(job: ClaimedJob) returns (key: Result<Key, Refusal>)
      ensures key == Checks(h, Sys(HasJob(job)), job)
    {
      if job.state !in {Approved, Queued, Executing} {
        return Err(StateForbids);
      }
      if job.id !in decisions {
        return Err(NoDecision);
      }
      var decision := decisions[job.id];
      if !decision.approved {
        return Err(NotApproved);
      }
      if decision.approver == job.requester {
        return Err(SelfApproval);
      }
      if job.expiresAt < now {
        return Err(Expired);
      }
      if h(job.payload) != job.hash {
        return Err(StoredHashMismatch);
      }
      if decision.approvedHash != job.hash {
        return Err(ApprovedHashMismatch);
      }
      return Ok(IdempotencyKey(job.id, job.hash));
    }

    method Finish(job: ClaimedJob, jobState: JobState, actionState: ActionState, backoff: nat)
      modifies `jobs, `actions
      ensures forall p :: Sys(p) == Close(old(Sys(p)), job, jobState, actionState, backoff)
    {
      if job.id in jobs {
        jobs := jobs[job.id := FinishJob(jobs[job.id], jobState, now, backoff)];
      }
      if job.id in actions {
        actions := actions[job.id := SetActionState(actions[job.id], actionState)];
      }
    }

    method RecordOutcome(job: ClaimedJob, key: Key, outcome: Outcome)
      modifies `jobs, `actions, `executions
      ensures Sys(Idle) == Next(h, old(Sys(Recording(job, key, outcome))), Record(me))
    {
      ghost var before := Sys(Recording(job, key, outcome));
      executions := executions[key := outcome];
      Finish(job, JobStateAfter(job, outcome), ActionStateAfter(job, outcome), 30 * Pow2(job.attempts));
      assert PhaseOf(before, me) == Recording(job, key, outcome);
      assert before.workers[me := Idle] == others[me := Idle];
    }

    method RefuseJob(job: ClaimedJob)
      modifies `jobs, `actions
      ensures Sys(Idle) == Next(h, old(Sys(Refusing(job))), Refuse(me))
    {
      ghost var before := Sys(Refusing(job));
      Finish(job, JobFailed, Failed, 0);
      assert PhaseOf(before, me) == Refusing(job);
      assert before.workers[me := Idle] == others[me := Idle];
    }

    /** Ask the provider before deciding anything; it may not answer. */
    method Reconcile(job: ClaimedJob, key: Key, script: Script) returns (result: Option<Outcome>)
      modifies `jobs, `actions, `executions
      ensures result.None? <==> script.lookupRaises
      ensures Sys(if result.Some? then Idle else Refusing(job))
           == Looked(h, old(Sys(Reconciling(job, key))), me, key, script.lookupRaises)
    {
      ghost var before := Sys(Reconciling(job, key));
      assert PhaseOf(before, me) == Reconciling(job, key);
      if script.lookupRaises {
        assert before.workers[me := Refusing(job)] == others[me := Refusing(job)];
        return None;
      }
      var observed := Observed(LandedIn(effects, key));
      var outcome := if observed.Some? then observed.value else OutFailed;
      assert before.workers[me := Recording(job, key, outcome)] == others[me := Recording(job, key, outcome)];
      assert Sys(Recording(job, key, outcome)) == Next(h, before, Lookup(me, observed));
      RecordOutcome(job, key, outcome);
      return Some(outcome);
    }

    method TryReserve(job: ClaimedJob, key: Key) returns (reserved: bool)
      modifies `executions
      ensures reserved <==> key !in old(executions)
      ensures Sys(if reserved then Reserved(job, key) else Reconciling(job, key))
           == Next(h, old(Sys(Verified(job, key))), Reserve(me))
    {
      ghost var before := Sys(Verified(job, key));
      assert PhaseOf(before, me) == Verified(job, key);
      reserved := key !in executions;
      if reserved {
        executions := executions[key := OutAmbiguous];
      }
      assert Next(h, before, Reserve(me)).workers
          == others[me := if reserved then Reserved(job, key) else Reconciling(job, key)];
    }

    method CallProvider(job: ClaimedJob, key: Key, script: Script)
      requires script.Honest()
      modifies `calls, `effects
      ensures Sys(AfterReply(job, key, script.reply))
           == Next(h, old(Sys(Reserved(job, key))), Call(me, script.landed, script.reply))
    {
      ghost var before := Sys(Reserved(job, key));
      assert PhaseOf(before, me) == Reserved(job, key);
      calls := calls + [key];
      if script.landed {
        effects := effects + [Effect(job.id, key, job.payload)];
      }
      assert Next(h, before, Call(me, script.landed, script.reply)).workers
          == others[me := AfterReply(job, key, script.reply)];
    }

    /** Reserve the key, call the provider once, and record what happened. None: it raised. */
    method Execute(job: ClaimedJob, key: Key, script: Script) returns (result: Option<Outcome>)
      requires script.Honest()
      modifies `jobs, `actions, `executions, `calls, `effects
      ensures result.None? <==> ExecuteRaises(old(Sys(Verified(job, key))), key, script)
      ensures Sys(if result.Some? then Idle else Refusing(job)) == Executed(h, old(Sys(Verified(job, key))), me, key, script)
    {
      var reserved := TryReserve(job, key);
      if !reserved {
        result := Reconcile(job, key, script);
        return;
      }
      CallProvider(job, key, script);
      match script.reply {
        case Raised =>
          result := None;
        case Answered(outcome) =>
          if outcome == OutAmbiguous {
            result := Reconcile(job, key, script);
          } else {
            RecordOutcome(job, key, outcome);
            result := Some(outcome);
          }
      }
    }

    /** What the loop does with a claimed job: verify, execute, and refuse whatever does not get that far. */
    method Process(job: ClaimedJob, script: Script)
      requires script.Honest()
      modifies `jobs, `actions, `executions, `calls, `effects
      ensures Sys(Idle) == Processed(h, old(Sys(HasJob(job))), me, job, script)
    {
      ghost var claimed := Sys(HasJob(job));
      assert PhaseOf(claimed, me) == HasJob(job);
      if script.verifyRaises {
        assert Next(h, claimed, Fault(me)).workers == others[me := Refusing(job)];
        RefuseJob(job);
        return;
      }
      var key := Check(job);
      if key.Err? {
        assert Next(h, claimed, Verify(me)).workers == others[me := Refusing(job)];
        RefuseJob(job);
        return;
      }
      assert Next(h, claimed, Verify(me)).workers == others[me := Verified(job, key.value)];
      var result := Execute(job, key.value, script);
      if result.None? {
        RefuseJob(job);
      }
    }

    /** One turn: the job claimed is taken all the way, and nothing happens if none is ready. */
    method Turn(script: Script) returns (taken: Option<ActionId>)
      requires script.Honest()
      modifies `jobs, `actions, `executions, `calls, `effects
      ensures Chosen(old(Sys(Idle)), taken)
      ensures Sys(Idle) == TurnDone(h, old(Sys(Idle)), me, lease, taken, script)
    {
      var job := TakeJob();
      if job.None? {
        return None;
      }
      assert PhaseOf(Sys(HasJob(job.value)), me) == HasJob(job.value);
      Process(job.value, script);
      taken := Some(job.value.id);
    }

    /** Something done by somebody else: the clock, a requester, an approver, a tamperer, another worker. */
    method Elsewhere(e: Event)
      requires !DoneBy(e, me)
      modifies this
      ensures Sys(Idle) == Next(h, old(Sys(Idle)), e)
    {
      var before := Sys(Idle);
      OthersStepAside(h, before, e, me);
      var after := Next(h, before, e);
      now, actions, decisions, jobs := after.now, after.actions, after.decisions, after.jobs;
      executions, calls, effects := after.executions, after.calls, after.effects;
      others, proposals := after.workers, after.proposals;
    }

    method AllElsewhere(events: seq<Event>)
      requires forall i :: 0 <= i < |events| ==> !DoneBy(events[i], me)
      modifies this
      ensures Sys(Idle) == After(h, old(Sys(Idle)), events)
    {
      ghost var start := Sys(Idle);
      for i := 0 to |events|
        invariant Sys(Idle) == After(h, start, events[..i])
      {
        Elsewhere(events[i]);
        AfterConcat(h, start, events[..i], [events[i]]);
        OneEvent(h, After(h, start, events[..i]), events[i]);
        assert events[..i + 1] == events[..i] + [events[i]];
      }
      assert events[..|events|] == events;
    }

    /**
     The loop, until it is told to stop, with anything at all happening elsewhere between its turns: it
     takes the oldest ready job each time, all the way, does nothing besides, and so is a run of the
     protocol.
     */
    method Run(outside: seq<Outside>) returns (taken: seq<Option<ActionId>>, ghost trace: seq<Event>)
      requires forall i :: 0 <= i < |outside| ==> outside[i].script.Honest()
      requires forall i, j :: 0 <= i < |outside| && 0 <= j < |outside[i].elsewhere| ==> !DoneBy(outside[i].elsewhere[j], me)
      requires Inv(h, Sys(Idle))
      modifies this
      ensures |taken| == |outside| && Sys(Idle) == Looped(h, old(Sys(Idle)), me, lease, taken, outside, |outside|)
      ensures forall n :: 0 <= n < |taken| ==>
        Chosen(BeforeTurn(h, old(Sys(Idle)), me, lease, taken, outside, n), taken[n])
      ensures Sys(Idle) == After(h, old(Sys(Idle)), trace)
      ensures Inv(h, Sys(Idle)) && Grows(old(Sys(Idle)), Sys(Idle))
    {
      ghost var start := Sys(Idle);
      taken, trace := [], [];
      for turn := 0 to |outside|
        invariant |taken| == turn
        invariant Sys(Idle) == Looped(h, start, me, lease, taken, outside, turn)
        invariant forall n :: 0 <= n < turn ==> Chosen(BeforeTurn(h, start, me, lease, taken, outside, n), taken[n])
        invariant Sys(Idle) == After(h, start, trace)
      {
        AllElsewhere(outside[turn].elsewhere);
        AfterConcat(h, start, trace, outside[turn].elsewhere);
        ghost var ready := Sys(Idle);
        var id := Turn(outside[turn].script);
        forall n: nat | n <= turn
          ensures Looped(h, start, me, lease, taken + [id], outside, n) == Looped(h, start, me, lease, taken, outside, n)
          ensures BeforeTurn(h, start, me, lease, taken + [id], outside, n) == BeforeTurn(h, start, me, lease, taken, outside, n)
        {
          LoopedSoFar(h, start, me, lease, taken, id, outside, n);
        }
        ghost var steps := TurnEvents(h, ready, me, lease, id, outside[turn].script);
        TurnIsARun(h, ready, me, lease, id, outside[turn].script);
        AfterConcat(h, start, trace + outside[turn].elsewhere, steps);
        taken, trace := taken + [id], trace + outside[turn].elsewhere + steps;
      }
      RunKeeps(h, start, trace);
    }
  }

  /** A step of this worker, or its death. */
  predicate DoneBy(e: Event, me: WorkerId) {
    match e
    case Claim(w, _, _) => w == me
    case Verify(w) => w == me
    case Reserve(w) => w == me
    case Call(w, _, _) => w == me
    case Lookup(w, _) => w == me
    case Fault(w) => w == me
    case Record(w) => w == me
    case Refuse(w) => w == me
    case Crash(w) => w == me
    case _ => false
  }

  lemma OthersStepAside(h: Payload -> string, s: System, e: Event, me: WorkerId)
    requires !DoneBy(e, me) && me in s.workers && s.workers[me] == Idle
    ensures var t := Next(h, s, e); me in t.workers && t.workers[me := Idle] == t.workers
  {
  }

  lemma OneEvent(h: Payload -> string, s: System, e: Event)
    ensures After(h, s, [e]) == Next(h, s, e)
  {
    assert After(h, Next(h, s, e), []) == Next(h, s, e);
  }

  lemma TwoEvents(h: Payload -> string, s: System, e: Event, f: Event)
    ensures After(h, s, [e, f]) == Next(h, Next(h, s, e), f)
  {
    assert [e, f][1..] == [f];
    OneEvent(h, Next(h, s, e), f);
  }

  /** The steps fit together: a verified job whose key is free succeeds if the provider does. */
  lemma VerifiedJobSucceeds(h: Payload -> string, s: System, w: WorkerId)
    requires Inv(h, s) && PhaseOf(s, w).Verified? && PhaseOf(s, w).key !in s.executions
    requires s.actions[PhaseOf(s, w).job.id].state in {Approved, Executing}
    ensures var job, key := PhaseOf(s, w).job, PhaseOf(s, w).key;
      var t := After(h, s, [Reserve(w), Call(w, true, Answered(OutSucceeded)), Record(w)]);
      && job.id in t.actions && t.actions[job.id].state == Succeeded
      && t.effects == s.effects + [Effect(job.id, key, job.payload)]
  {
    var job, key := PhaseOf(s, w).job, PhaseOf(s, w).key;
    var call := Call(w, true, Answered(OutSucceeded));
    assert PhaseOk(h, s, PhaseOf(s, w));
    var t := Next(h, s, Reserve(w));
    assert t == DoReserve(s, w, job, key);
    var u := Next(h, t, call);
    assert u == DoCall(t, w, job, key, true, Answered(OutSucceeded));
    TwoEvents(h, s, Reserve(w), call);
    assert [Reserve(w), call, Record(w)] == [Reserve(w), call] + [Record(w)];
    AfterConcat(h, s, [Reserve(w), call], [Record(w)]);
    OneEvent(h, u, Record(w));
    RecordSucceeds(h, u, w);
  }

  lemma RecordSucceeds(h: Payload -> string, s: System, w: WorkerId)
    requires PhaseOf(s, w).Recording? && PhaseOf(s, w).outcome == OutSucceeded
    requires PhaseOf(s, w).job.id in s.actions && s.actions[PhaseOf(s, w).job.id].state in {Approved, Executing}
    ensures var t := Next(h, s, Record(w));
      var id := PhaseOf(s, w).job.id;
      id in t.actions && t.actions[id].state == Succeeded && t.effects == s.effects
  {
  }

  lemma FreshClaim(h: Payload -> string, s: System, id: ActionId, alice: UserId, fiona: UserId, payload: Payload,
                   lifetime: nat)
    requires alice != fiona && PhaseOf(s, 0).Idle?
    requires id in s.actions && s.actions[id] == Action(alice, payload, h(payload), Approved, s.now + lifetime)
    requires id in s.decisions && s.decisions[id] == Decision(fiona, true, h(payload))
    requires id in s.jobs && s.jobs[id] == Job(JobQueued, 0, 0, s.now)
    ensures var t := After(h, s, [Claim(0, id, 5), Verify(0)]);
      var key := IdempotencyKey(id, h(payload));
      && t.executions == s.executions && t.effects == s.effects && t.now == s.now
      && t.actions == s.actions && t.decisions == s.decisions
      && id in t.jobs && t.jobs[id] == Job(JobExecuting, 1, s.now + 5, s.now)
      && PhaseOf(t, 0) == Verified(ClaimedJob(id, payload, h(payload), Approved, s.now + lifetime, alice, 1), key)
      && forall v :: v != 0 ==> PhaseOf(t, v) == PhaseOf(s, v)
  {
    ClaimVerifies(h, s, 0, id);
  }

  /** A fresh proposal, approved by somebody else and claimed, is verified under its own key. */
  lemma ApprovedActionVerifies(h: Payload -> string, s: System, id: ActionId, alice: UserId, fiona: UserId,
                               payload: Payload, lifetime: nat)
    requires Inv(h, s) && id !in s.actions && ':' !in id && alice != fiona && PhaseOf(s, 0).Idle? && lifetime > 0
    ensures var events := [Propose(id, alice, payload, lifetime), Decide(id, fiona, true, h(payload)), Claim(0, id, 5),
                           Verify(0)];
      var t := After(h, s, events);
      var key := IdempotencyKey(id, h(payload));
      && t.executions == s.executions && t.effects == s.effects && t.now == s.now
      && id in t.actions && t.actions[id] == Action(alice, payload, h(payload), Approved, s.now + lifetime)
      && id in t.decisions && t.decisions[id] == Decision(fiona, true, h(payload))
      && id in t.jobs && t.jobs[id] == Job(JobExecuting, 1, s.now + 5, s.now)
      && PhaseOf(t, 0) == Verified(ClaimedJob(id, payload, h(payload), Approved, s.now + lifetime, alice, 1), key)
      && forall v :: v != 0 ==> PhaseOf(t, v) == PhaseOf(s, v)
  {
    var e1, e2 := Propose(id, alice, payload, lifetime), Decide(id, fiona, true, h(payload));
    ProposedAndDecided(h, s, id, alice, fiona, payload, lifetime);
    FreshClaim(h, After(h, s, [e1, e2]), id, alice, fiona, payload, lifetime);
    AfterConcat(h, s, [e1, e2], [Claim(0, id, 5), Verify(0)]);
    assert [e1, e2] + [Claim(0, id, 5), Verify(0)] == [e1, e2, Claim(0, id, 5), Verify(0)];
  }

  lemma ProposedAndDecided(h: Payload -> string, s: System, id: ActionId, alice: UserId, fiona: UserId, payload: Payload,
                           lifetime: nat)
    requires Inv(h, s) && id !in s.actions && ':' !in id && alice != fiona && lifetime > 0
    ensures var t := After(h, s, [Propose(id, alice, payload, lifetime), Decide(id, fiona, true, h(payload))]);
      t == s.(actions := s.actions[id := Action(alice, payload, h(payload), Approved, s.now + lifetime)],
              proposals := s.proposals[id := payload],
              decisions := s.decisions[id := Decision(fiona, true, h(payload))],
              jobs := s.jobs[id := Job(JobQueued, 0, 0, s.now)])
  {
    var a := DoPropose(h, s, id, alice, payload, lifetime);
    ProposeStep(h, s, id, alice, payload, lifetime);
    DecideStep(h, a, id, fiona);
    TwoEvents(h, s, Propose(id, alice, payload, lifetime), Decide(id, fiona, true, h(payload)));
    assert a.actions[id := Action(alice, payload, h(payload), Approved, s.now + lifetime)]
        == s.actions[id := Action(alice, payload, h(payload), Approved, s.now + lifetime)];
  }

  lemma ProposeStep(h: Payload -> string, s: System, id: ActionId, alice: UserId, payload: Payload, lifetime: nat)
    requires Inv(h, s) && id !in s.actions && ':' !in id
    ensures Next(h, s, Propose(id, alice, payload, lifetime)) == DoPropose(h, s, id, alice, payload, lifetime)
    ensures id !in s.decisions && id !in s.jobs
  {
    assert RowOk(s, id);
  }

  lemma DecideStep(h: Payload -> string, s: System, id: ActionId, fiona: UserId)
    requires id in s.actions && s.actions[id].state == PendingApproval && id !in s.decisions
    requires fiona != s.actions[id].requester && s.now < s.actions[id].expiresAt
    ensures Next(h, s, Decide(id, fiona, true, s.actions[id].hash)) == DoDecide(s, id, fiona, true, s.actions[id].hash)
  {
  }

  lemma ClaimStep(h: Payload -> string, s: System, w: WorkerId, id: ActionId)
    requires id in s.actions && Claimable(s, id) && PhaseOf(s, w).Idle?
    ensures Next(h, s, Claim(w, id, 5)) == Move(Lease(s, id, 5), w, HasJob(ReadJob(Lease(s, id, 5), id)))
  {
  }

  lemma VerifyStep(h: Payload -> string, s: System, w: WorkerId, job: ClaimedJob)
    requires PhaseOf(s, w) == HasJob(job)
    ensures Next(h, s, Verify(w))
         == Move(s, w, if Checks(h, s, job).Ok? then Verified(job, Checks(h, s, job).value) else Refusing(job))
  {
  }

  lemma ClaimVerifies(h: Payload -> string, s: System, w: WorkerId, id: ActionId)
    requires id in s.actions && id in s.decisions && Claimable(s, id) && PhaseOf(s, w).Idle?
    requires s.actions[id].state in {Approved, Executing} && s.now <= s.actions[id].expiresAt
    requires s.decisions[id].approved && s.decisions[id].approver != s.actions[id].requester
    requires s.decisions[id].approvedHash == s.actions[id].hash == h(s.actions[id].payload)
    ensures var t := After(h, s, [Claim(w, id, 5), Verify(w)]);
      t == Move(Lease(s, id, 5), w, Verified(ReadJob(Lease(s, id, 5), id), IdempotencyKey(id, s.actions[id].hash)))
  {
    var job := ReadJob(Lease(s, id, 5), id);
    var t := Move(Lease(s, id, 5), w, HasJob(job));
    ClaimStep(h, s, w, id);
    VerifyStep(h, t, w, job);
    TwoEvents(h, s, Claim(w, id, 5), Verify(w));
    assert t.workers[w := Verified(job, IdempotencyKey(id, job.hash))]
        == s.workers[w := Verified(job, IdempotencyKey(id, job.hash))];
  }

  /** Three claims and three deaths leave an orphan. */
  lemma OrphanIsReachable(h: Payload -> string, s: System, id: ActionId)
    requires id in s.actions && id in s.decisions && s.actions[id].state == Approved
    requires Claimable(s, id) && s.jobs[id].attempts == 0
    requires forall w :: PhaseOf(s, w).Idle?
    ensures exists events :: Orphaned(After(h, s, events), id)
  {
    var lost := [Claim(0, id, 5), Crash(0), Tick(6)];
    LoseWorker(h, s, id);
    var t := After(h, s, lost);
    LoseWorker(h, t, id);
    var u := After(h, t, lost);
    LoseWorker(h, u, id);
    AfterConcat(h, s, lost, lost);
    AfterConcat(h, s, lost + lost, lost);
    assert Orphaned(After(h, s, lost + lost + lost), id);
  }

  lemma LoseWorker(h: Payload -> string, s: System, id: ActionId)
    requires id in s.actions && id in s.decisions && Claimable(s, id)
    requires forall w :: PhaseOf(s, w).Idle?
    ensures var t := After(h, s, [Claim(0, id, 5), Crash(0), Tick(6)]);
      && t.actions == s.actions && t.decisions == s.decisions && id in t.jobs
      && t.jobs[id].attempts == s.jobs[id].attempts + 1
      && t.jobs[id].state == JobExecuting && t.jobs[id].leaseExpires < t.now
      && forall w :: PhaseOf(t, w).Idle?
  {
    var a := Next(h, s, Claim(0, id, 5));
    assert a == Move(Lease(s, id, 5), 0, HasJob(ReadJob(Lease(s, id, 5), id)));
    DeadWorker(h, a);
    assert [Claim(0, id, 5), Crash(0), Tick(6)][1..] == [Crash(0), Tick(6)];
    var t := Move(a, 0, Idle).(now := a.now + 6);
    forall w ensures PhaseOf(t, w).Idle? {
      assert PhaseOf(s, w).Idle?;
    }
  }

  lemma DeadWorker(h: Payload -> string, s: System)
    ensures After(h, s, [Crash(0), Tick(6)]) == Move(s, 0, Idle).(now := s.now + 6)
  {
    TwoEvents(h, s, Crash(0), Tick(6));
    assert Next(h, s, Crash(0)) == Move(s, 0, Idle);
  }
}
