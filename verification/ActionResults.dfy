/**
 What a final state says about the provider, when an action is stuck, and when a key can still land.
 Each is an exact condition, with a run from the empty system for the side that surprises.
 */
module ActionResults {
  import opened Wrappers
  import opened CanonicalJson
  import opened ActionProtocol

  // ---------------------------------------------------------------------------------------------
  // When FAILED hides an effect
  // ---------------------------------------------------------------------------------------------

  /** The provider has done something for the action. */
  predicate Acted(s: System, id: ActionId) {
    exists i :: 0 <= i < |s.effects| && s.effects[i].id == id
  }

  /** The action says FAILED and the provider acted all the same. */
  predicate Hidden(s: System, id: ActionId) {
    id in s.actions && s.actions[id].state == Failed && Acted(s, id)
  }

  /** A worker closes the action as FAILED though the provider acted, or the provider acts on it after that. */
  predicate Hides(s: System, e: Event, id: ActionId) {
    Enabled(s, e) && id in s.actions
    && match e
       case Call(w, landed, _) => landed && PhaseOf(s, w).job.id == id && s.actions[id].state == Failed
       case Refuse(w) => PhaseOf(s, w).job.id == id && s.actions[id].state in {Approved, Executing} && Acted(s, id)
       case Record(w) =>
         && PhaseOf(s, w).job.id == id && s.actions[id].state in {Approved, Executing} && Acted(s, id)
         && PhaseOf(s, w).outcome != OutSucceeded && !Retryable(PhaseOf(s, w).job, PhaseOf(s, w).outcome)
       case _ => false
  }

  predicate HidesAt(h: Payload -> string, events: seq<Event>, k: int, id: ActionId) {
    0 <= k < |events| && Hides(After(h, EMPTY, events[..k]), events[k], id)
  }

  lemma ActedAfter(h: Payload -> string, s: System, e: Event, id: ActionId)
    requires Inv(h, s)
    ensures Acted(Next(h, s, e), id) <==>
              Acted(s, id) || (e.Call? && Enabled(s, e) && e.landed && PhaseOf(s, e.w).job.id == id)
  {
    var t := Next(h, s, e);
    if e.Call? && Enabled(s, e) && e.landed {
      assert t.effects == s.effects + [Effect(PhaseOf(s, e.w).job.id, PhaseOf(s, e.w).key, PhaseOf(s, e.w).job.payload)];
      assert t.effects[|s.effects|].id == PhaseOf(s, e.w).job.id;
      if Acted(s, id) {
        var i :| 0 <= i < |s.effects| && s.effects[i].id == id;
        assert t.effects[i].id == id;
      }
    } else {
      assert t.effects == s.effects;
    }
  }

  lemma FailedAfter(h: Payload -> string, s: System, e: Event, id: ActionId)
    requires Inv(h, s) && id in s.actions
    ensures var t := Next(h, s, e);
      && id in t.actions
      && (t.actions[id].state == Failed <==>
            || s.actions[id].state == Failed
            || (s.actions[id].state in {Approved, Executing} && Enabled(s, e)
                && (|| (e.Refuse? && PhaseOf(s, e.w).job.id == id)
                    || (e.Record? && PhaseOf(s, e.w).job.id == id && PhaseOf(s, e.w).outcome != OutSucceeded
                        && !Retryable(PhaseOf(s, e.w).job, PhaseOf(s, e.w).outcome)))))
  {
    assert RowOk(s, id);
  }

  lemma HiddenAfter(h: Payload -> string, s: System, e: Event, id: ActionId)
    requires Inv(h, s)
    ensures Hidden(Next(h, s, e), id) <==> Hidden(s, id) || Hides(s, e, id)
  {
    ActedAfter(h, s, e, id);
    if id in s.actions {
      FailedAfter(h, s, e, id);
    } else {
      NewActionIsPending(h, s, e, id);
    }
  }

  lemma NewActionIsPending(h: Payload -> string, s: System, e: Event, id: ActionId)
    requires Inv(h, s) && id !in s.actions
    ensures var t := Next(h, s, e); id in t.actions ==> t.actions[id].state == PendingApproval
  {
    assert RowOk(s, id);
  }

  /**
   Over every run: an action is FAILED with an effect behind it exactly when at some step a worker
   refused or gave up an action the provider had acted on, or the provider acted on one already FAILED.
   */
  lemma {:induction false} FailedHidesOverRuns(h: Payload -> string, events: seq<Event>, id: ActionId)
    ensures Hidden(After(h, EMPTY, events), id) <==> exists k :: HidesAt(h, events, k, id)
    decreases |events|
  {
    if |events| > 0 {
      var n := |events| - 1;
      var first, last := events[..n], events[n];
      var s := After(h, EMPTY, first);
      assert events == first + [last];
      FailedHidesOverRuns(h, first, id);
      EmptyOk(h);
      RunKeeps(h, EMPTY, first);
      LastEvent(h, EMPTY, first, last);
      HiddenAfter(h, s, last, id);
      forall k | 0 <= k < n ensures HidesAt(h, events, k, id) <==> HidesAt(h, first, k, id) {
        assert events[..k] == first[..k];
      }
      assert HidesAt(h, events, n, id) <==> Hides(s, last, id);
    }
  }

  /** What a worker that has reserved a key does next, down to the loop's own refusal. */
  function CallTurn(w: WorkerId, script: Script): seq<Event> {
    CallEvents(w, script, script.landed) + if CallRaises(script) then [Refuse(w)] else []
  }

  lemma ReservedKeyNeverLanded(h: Payload -> string, s: System, w: WorkerId)
    requires Inv(h, s) && PhaseOf(s, w).Reserved?
    ensures !Landed(s, PhaseOf(s, w).key)
  {
    assert PhaseOk(h, s, PhaseOf(s, w));
    forall i | 0 <= i < |s.effects| ensures s.effects[i].key != PhaseOf(s, w).key {
      assert EffectOk(h, s, i);
    }
  }

  lemma CalledState(h: Payload -> string, s: System, w: WorkerId, script: Script)
    requires Inv(h, s) && PhaseOf(s, w).Reserved? && script.Honest()
    ensures var job, key := PhaseOf(s, w).job, PhaseOf(s, w).key;
      var t := Next(h, s, Call(w, script.landed, script.reply));
      && t == DoCall(s, w, job, key, script.landed, script.reply)
      && PhaseOf(t, w) == AfterReply(job, key, script.reply)
      && t.actions == s.actions
      && (Landed(t, key) <==> script.landed)
  {
    ReservedKeyNeverLanded(h, s, w);
    var t := DoCall(s, w, PhaseOf(s, w).job, PhaseOf(s, w).key, script.landed, script.reply);
    if script.landed {
      assert t.effects[|s.effects|].key == PhaseOf(s, w).key;
    }
  }

  lemma RefusedState(h: Payload -> string, s: System, w: WorkerId)
    requires PhaseOf(s, w).Refusing? && PhaseOf(s, w).job.id in s.actions
    ensures var t, id := Next(h, s, Refuse(w)), PhaseOf(s, w).job.id;
      id in t.actions && t.actions[id] == SetActionState(s.actions[id], Failed) && t.effects == s.effects
  {
  }

  lemma RecordedState(h: Payload -> string, s: System, w: WorkerId)
    requires PhaseOf(s, w).Recording? && PhaseOf(s, w).job.id in s.actions
    ensures var t, p, id := Next(h, s, Record(w)), PhaseOf(s, w), PhaseOf(s, w).job.id;
      && id in t.actions && t.actions[id] == SetActionState(s.actions[id], ActionStateAfter(p.job, p.outcome))
      && t.effects == s.effects
  {
  }

  /** Where the rest of the turn puts an action that is still in the workers' hands. */
  function EndState(job: ClaimedJob, script: Script): ActionState {
    match script.reply
    case Raised => Failed
    case Answered(outcome) =>
      if outcome != OutAmbiguous then ActionStateAfter(job, outcome)
      else if script.lookupRaises then Failed
      else ActionStateAfter(job, if script.landed then OutSucceeded else OutFailed)
  }

  lemma RestOfTurn(h: Payload -> string, s: System, w: WorkerId, job: ClaimedJob, key: Key, script: Script)
    requires PhaseOf(s, w) == AfterReply(job, key, script.reply) && script.Honest()
    requires job.id in s.actions && (Landed(s, key) <==> script.landed)
    ensures var t := After(h, s, CallTurn(w, script)[1..]);
      && t.effects == s.effects && job.id in t.actions
      && t.actions[job.id] == SetActionState(s.actions[job.id], EndState(job, script))
  {
    match script.reply {
      case Raised =>
        assert CallTurn(w, script)[1..] == [Refuse(w)];
        OneEvent(h, s, Refuse(w));
        RefusedState(h, s, w);
      case Answered(outcome) =>
        if outcome != OutAmbiguous {
          assert CallTurn(w, script)[1..] == [Record(w)];
          OneEvent(h, s, Record(w));
          RecordedState(h, s, w);
        } else if script.lookupRaises {
          var t := Move(s, w, Refusing(job));
          assert CallTurn(w, script)[1..] == [Fault(w), Refuse(w)];
          assert Next(h, s, Fault(w)) == t;
          TwoEvents(h, s, Fault(w), Refuse(w));
          RefusedState(h, t, w);
        } else {
          assert CallTurn(w, script)[1..] == [Lookup(w, Observed(script.landed)), Record(w)];
          var t := Move(s, w, Recording(job, key, if script.landed then OutSucceeded else OutFailed));
          assert Next(h, s, Lookup(w, Observed(script.landed))) == t;
          TwoEvents(h, s, Lookup(w, Observed(script.landed)), Record(w));
          RecordedState(h, t, w);
        }
    }
  }

  /** While its key waits for the call, an action is in the workers' hands or already given up. */
  lemma ReservedActionStates(h: Payload -> string, s: System, w: WorkerId)
    requires Inv(h, s) && PhaseOf(s, w).Reserved?
    ensures var id := PhaseOf(s, w).job.id; id in s.actions && s.actions[id].state in {Approved, Executing, Failed}
  {
    assert PhaseOk(h, s, PhaseOf(s, w)) && RowOk(s, PhaseOf(s, w).job.id);
    ReservedKeyNeverLanded(h, s, w);
  }

  /**
   A worker that stands before its call, whatever the others did until then, ends its turn with the
   action FAILED and an effect behind it exactly when the provider acts and one of four things holds:
   the action was given up already, the call raises, the lookup after an ambiguous reply raises, or a
   failure is reported on the last attempt.
   */
  lemma FailedHidesExactly(h: Payload -> string, s: System, w: WorkerId, script: Script)
    requires Inv(h, s) && PhaseOf(s, w).Reserved? && script.Honest()
    ensures PhaseOf(s, w).job.id in s.actions
    ensures var job, key := PhaseOf(s, w).job, PhaseOf(s, w).key;
      var t := After(h, s, CallTurn(w, script));
      && job.id in t.actions
      && (t.actions[job.id].state == Failed && Landed(t, key)
          <==> && script.landed
               && (|| s.actions[job.id].state == Failed
                   || script.reply.Raised?
                   || (script.reply == Answered(OutAmbiguous) && script.lookupRaises)
                   || (script.reply == Answered(OutFailed) && job.attempts >= MAX_ATTEMPTS)))
  {
    var job, key := PhaseOf(s, w).job, PhaseOf(s, w).key;
    ReservedActionStates(h, s, w);
    CalledState(h, s, w, script);
    var call := Call(w, script.landed, script.reply);
    var u := Next(h, s, call);
    assert CallTurn(w, script) == [call] + CallTurn(w, script)[1..];
    OneEvent(h, s, call);
    AfterConcat(h, s, [call], CallTurn(w, script)[1..]);
    RestOfTurn(h, u, w, job, key, script);
    assert Landed(After(h, s, CallTurn(w, script)), key) <==> Landed(u, key);
  }

  /** From proposal to the worker's reservation. */
  function UpToReservation(h: Payload -> string, id: ActionId, alice: UserId, fiona: UserId, payload: Payload, lifetime: nat)
    : seq<Event>
  {
    [Propose(id, alice, payload, lifetime), Decide(id, fiona, true, h(payload)), Claim(0, id, 5), Verify(0)] + [Reserve(0)]
  }

  lemma ReservationReached(h: Payload -> string, id: ActionId, alice: UserId, fiona: UserId, payload: Payload, lifetime: nat)
    requires ':' !in id && alice != fiona && lifetime > 0
    ensures var t := After(h, EMPTY, UpToReservation(h, id, alice, fiona, payload, lifetime));
      var key := IdempotencyKey(id, h(payload));
      && t.now == EMPTY.now && key in t.executions && PhaseOf(t, 1).Idle?
      && id in t.actions && t.actions[id] == Action(alice, payload, h(payload), Approved, t.now + lifetime)
      && id in t.decisions && t.decisions[id] == Decision(fiona, true, h(payload))
      && id in t.jobs && t.jobs[id] == Job(JobExecuting, 1, t.now + 5, t.now)
      && PhaseOf(t, 0) == Reserved(ClaimedJob(id, payload, h(payload), Approved, t.now + lifetime, alice, 1), key)
  {
    var first := [Propose(id, alice, payload, lifetime), Decide(id, fiona, true, h(payload)), Claim(0, id, 5), Verify(0)];
    EmptyOk(h);
    ApprovedActionVerifies(h, EMPTY, id, alice, fiona, payload, lifetime);
    AfterConcat(h, EMPTY, first, [Reserve(0)]);
    var s := After(h, EMPTY, first);
    assert PhaseOf(s, 1) == PhaseOf(EMPTY, 1);
    ReservedState(h, s, 0);
  }

  lemma ReservedState(h: Payload -> string, s: System, w: WorkerId)
    requires PhaseOf(s, w).Verified? && PhaseOf(s, w).key !in s.executions
    ensures var t, p := After(h, s, [Reserve(w)]), PhaseOf(s, w);
      && t == DoReserve(s, w, p.job, p.key)
      && PhaseOf(t, w) == Reserved(p.job, p.key) && p.key in t.executions
      && (forall v :: v != w ==> PhaseOf(t, v) == PhaseOf(s, v))
  {
    OneEvent(h, s, Reserve(w));
  }

  /** From the empty system: proposed, approved, claimed, verified, and an error after the provider acted. */
  lemma ErrorRunHidesTheEffect(h: Payload -> string, id: ActionId, alice: UserId, fiona: UserId, payload: Payload)
    requires ':' !in id && alice != fiona
    ensures var t := After(h, EMPTY, UpToReservation(h, id, alice, fiona, payload, 10)
                                     + CallTurn(0, Script(true, Raised, false, false)));
      id in t.actions && t.actions[id].state == Failed && Landed(t, IdempotencyKey(id, h(payload)))
  {
    EmptyOk(h);
    var first := UpToReservation(h, id, alice, fiona, payload, 10);
    ReservationReached(h, id, alice, fiona, payload, 10);
    RunKeeps(h, EMPTY, first);
    FailedHidesExactly(h, After(h, EMPTY, first), 0, Script(true, Raised, false, false));
    AfterConcat(h, EMPTY, first, CallTurn(0, Script(true, Raised, false, false)));
  }

  /** The provider acts and says so, the worker dies before it records, and the approval runs out meanwhile. */
  function DeathAfterEffect(h: Payload -> string, id: ActionId, alice: UserId, fiona: UserId, payload: Payload): seq<Event> {
    UpToReservation(h, id, alice, fiona, payload, 10)
    + [Call(0, true, Answered(OutSucceeded)), Crash(0)] + [Tick(20)] + [Claim(1, id, 5), Verify(1)] + [Refuse(1)]
  }

  lemma CallThenDeath(h: Payload -> string, s: System, w: WorkerId)
    requires PhaseOf(s, w).Reserved?
    ensures var t := After(h, s, [Call(w, true, Answered(OutSucceeded)), Crash(w)]);
      && Acted(t, PhaseOf(s, w).job.id)
      && t.now == s.now && t.actions == s.actions && t.decisions == s.decisions && t.jobs == s.jobs
      && forall v :: v != w ==> PhaseOf(t, v) == PhaseOf(s, v)
  {
    var u := DoCall(s, w, PhaseOf(s, w).job, PhaseOf(s, w).key, true, Answered(OutSucceeded));
    assert Next(h, s, Call(w, true, Answered(OutSucceeded))) == u;
    TwoEvents(h, s, Call(w, true, Answered(OutSucceeded)), Crash(w));
    assert u.effects[|s.effects|].id == PhaseOf(s, w).job.id;
  }

  lemma ExpiredClaim(h: Payload -> string, s: System, w: WorkerId, id: ActionId)
    requires id in s.actions && id in s.decisions && Claimable(s, id) && PhaseOf(s, w).Idle?
    requires s.actions[id].state in {Approved, Executing} && s.actions[id].expiresAt < s.now
    requires s.decisions[id].approved && s.decisions[id].approver != s.actions[id].requester
    ensures After(h, s, [Claim(w, id, 5), Verify(w)]) == Move(Lease(s, id, 5), w, Refusing(ReadJob(Lease(s, id, 5), id)))
  {
    var job := ReadJob(Lease(s, id, 5), id);
    var t := Move(Lease(s, id, 5), w, HasJob(job));
    ClaimStep(h, s, w, id);
    VerifyStep(h, t, w, job);
    TwoEvents(h, s, Claim(w, id, 5), Verify(w));
    assert t.workers[w := Refusing(job)] == s.workers[w := Refusing(job)];
  }

  lemma ExpiredIsRefused(h: Payload -> string, s: System, w: WorkerId, id: ActionId)
    requires id in s.actions && id in s.decisions && Claimable(s, id) && PhaseOf(s, w).Idle?
    requires s.actions[id].state in {Approved, Executing} && s.actions[id].expiresAt < s.now
    requires s.decisions[id].approved && s.decisions[id].approver != s.actions[id].requester
    ensures var t := After(h, s, [Claim(w, id, 5), Verify(w)] + [Refuse(w)]);
      id in t.actions && t.actions[id].state == Failed && t.effects == s.effects
  {
    ExpiredClaim(h, s, w, id);
    var t := Move(Lease(s, id, 5), w, Refusing(ReadJob(Lease(s, id, 5), id)));
    RefusedState(h, t, w);
    LastEvent(h, s, [Claim(w, id, 5), Verify(w)], Refuse(w));
  }

  /** From the empty system: the first attempt succeeds, and the next worker refuses it as expired. */
  lemma DeathRunHidesTheEffect(h: Payload -> string, id: ActionId, alice: UserId, fiona: UserId, payload: Payload)
    requires ':' !in id && alice != fiona
    ensures Hidden(After(h, EMPTY, DeathAfterEffect(h, id, alice, fiona, payload)), id)
  {
    var first, second := UpToReservation(h, id, alice, fiona, payload, 10), [Call(0, true, Answered(OutSucceeded)), Crash(0)];
    ReservationReached(h, id, alice, fiona, payload, 10);
    var s := After(h, EMPTY, first);
    CallThenDeath(h, s, 0);
    AfterConcat(h, EMPTY, first, second);
    LastEvent(h, EMPTY, first + second, Tick(20));
    var t := After(h, EMPTY, first + second + [Tick(20)]);
    ExpiredIsRefused(h, t, 1, id);
    AfterConcat(h, EMPTY, first + second + [Tick(20)], [Claim(1, id, 5), Verify(1)] + [Refuse(1)]);
    assert first + second + [Tick(20)] + ([Claim(1, id, 5), Verify(1)] + [Refuse(1)])
        == DeathAfterEffect(h, id, alice, fiona, payload);
  }

  /** A claim that finds the key taken and nothing landed: it reconciles and records a failure. */
  function RetryRound(w: WorkerId, id: ActionId): seq<Event> {
    [Claim(w, id, 5), Verify(w)] + [Reserve(w), Lookup(w, None)] + [Record(w)]
  }

  /** The action and its job after the `attempts`-th attempt ended in a recorded failure. */
  predicate AfterFailure(s: System, t: System, id: ActionId, attempts: nat) {
    && id in s.actions && id in t.actions && id in s.jobs && id in t.jobs
    && t.actions[id] == s.actions[id].(state := if attempts < MAX_ATTEMPTS then Executing else Failed)
    && t.jobs[id].attempts == attempts
    && (attempts < MAX_ATTEMPTS ==>
          t.jobs[id] == Job(JobQueued, attempts, 0, s.now + 30 * Pow2(attempts)))
  }

  lemma RetryRoundFails(h: Payload -> string, s: System, w: WorkerId, id: ActionId)
    requires id in s.actions && id in s.decisions && Claimable(s, id) && PhaseOf(s, w).Idle?
    requires s.actions[id].state in {Approved, Executing} && s.now <= s.actions[id].expiresAt
    requires s.decisions[id].approved && s.decisions[id].approver != s.actions[id].requester
    requires s.decisions[id].approvedHash == s.actions[id].hash == h(s.actions[id].payload)
    requires IdempotencyKey(id, s.actions[id].hash) in s.executions
    ensures var t := After(h, s, RetryRound(w, id));
      && AfterFailure(s, t, id, s.jobs[id].attempts + 1)
      && t.now == s.now && t.effects == s.effects && t.decisions == s.decisions
      && t.executions.Keys == s.executions.Keys && t.workers == s.workers[w := Idle]
  {
    var key := IdempotencyKey(id, s.actions[id].hash);
    var job := ReadJob(Lease(s, id, 5), id);
    RoundRecords(h, s, w, id, job, key);
    RecordsLeased(h, s, w, id, job, key);
  }

  lemma RoundRecords(h: Payload -> string, s: System, w: WorkerId, id: ActionId, job: ClaimedJob, key: Key)
    requires id in s.actions && id in s.decisions && Claimable(s, id) && PhaseOf(s, w).Idle?
    requires s.actions[id].state in {Approved, Executing} && s.now <= s.actions[id].expiresAt
    requires s.decisions[id].approved && s.decisions[id].approver != s.actions[id].requester
    requires s.decisions[id].approvedHash == s.actions[id].hash == h(s.actions[id].payload)
    requires key == IdempotencyKey(id, s.actions[id].hash) && key in s.executions && job == ReadJob(Lease(s, id, 5), id)
    ensures After(h, s, RetryRound(w, id)) == Next(h, Move(Lease(s, id, 5), w, Recording(job, key, OutFailed)), Record(w))
  {
    RoundReconciles(h, s, w, id, job, key);
    LastEvent(h, s, [Claim(w, id, 5), Verify(w)] + [Reserve(w), Lookup(w, None)], Record(w));
  }

  /** Recording a failure for a job just leased. */
  lemma RecordsLeased(h: Payload -> string, s: System, w: WorkerId, id: ActionId, job: ClaimedJob, key: Key)
    requires id in s.actions && id in s.jobs && s.actions[id].state in {Approved, Executing}
    requires key in s.executions && job == ReadJob(Lease(s, id, 5), id)
    ensures var t := Next(h, Move(Lease(s, id, 5), w, Recording(job, key, OutFailed)), Record(w));
      && AfterFailure(s, t, id, s.jobs[id].attempts + 1)
      && t.now == s.now && t.effects == s.effects && t.decisions == s.decisions
      && t.executions.Keys == s.executions.Keys && t.workers == s.workers[w := Idle]
  {
    var b := Move(Lease(s, id, 5), w, Recording(job, key, OutFailed));
    RecordsFailure(h, b, w, job, key);
    assert b.workers[w := Idle] == s.workers[w := Idle];
  }

  lemma RoundReconciles(h: Payload -> string, s: System, w: WorkerId, id: ActionId, job: ClaimedJob, key: Key)
    requires id in s.actions && id in s.decisions && Claimable(s, id) && PhaseOf(s, w).Idle?
    requires s.actions[id].state in {Approved, Executing} && s.now <= s.actions[id].expiresAt
    requires s.decisions[id].approved && s.decisions[id].approver != s.actions[id].requester
    requires s.decisions[id].approvedHash == s.actions[id].hash == h(s.actions[id].payload)
    requires key == IdempotencyKey(id, s.actions[id].hash) && key in s.executions && job == ReadJob(Lease(s, id, 5), id)
    ensures After(h, s, [Claim(w, id, 5), Verify(w)] + [Reserve(w), Lookup(w, None)])
         == Move(Lease(s, id, 5), w, Recording(job, key, OutFailed))
  {
    ClaimVerifies(h, s, w, id);
    var a := Move(Lease(s, id, 5), w, Verified(job, key));
    TakenKeyReconciles(h, a, w, job, key);
    assert a.workers[w := Recording(job, key, OutFailed)] == s.workers[w := Recording(job, key, OutFailed)];
    AfterConcat(h, s, [Claim(w, id, 5), Verify(w)], [Reserve(w), Lookup(w, None)]);
  }

  lemma EmptyLookup(h: Payload -> string, s: System, w: WorkerId, job: ClaimedJob, key: Key)
    requires PhaseOf(s, w) == Reconciling(job, key)
    ensures Next(h, s, Lookup(w, None)) == Move(s, w, Recording(job, key, OutFailed))
  {
  }

  lemma TakenKeyReconciles(h: Payload -> string, s: System, w: WorkerId, job: ClaimedJob, key: Key)
    requires PhaseOf(s, w) == Verified(job, key) && key in s.executions
    ensures After(h, s, [Reserve(w), Lookup(w, None)]) == Move(s, w, Recording(job, key, OutFailed))
  {
    var t := Move(s, w, Reconciling(job, key));
    assert Next(h, s, Reserve(w)) == t;
    EmptyLookup(h, t, w, job, key);
    assert t.workers[w := Recording(job, key, OutFailed)] == s.workers[w := Recording(job, key, OutFailed)];
    TwoEvents(h, s, Reserve(w), Lookup(w, None));
  }

  lemma RecordsFailure(h: Payload -> string, s: System, w: WorkerId, job: ClaimedJob, key: Key)
    requires PhaseOf(s, w) == Recording(job, key, OutFailed) && key in s.executions
    requires job.id in s.jobs && job.id in s.actions && s.actions[job.id].state in {Approved, Executing}
    requires s.jobs[job.id].attempts == job.attempts
    ensures var t := Next(h, s, Record(w));
      && AfterFailure(s, t, job.id, job.attempts)
      && t.now == s.now && t.effects == s.effects && t.decisions == s.decisions
      && t.executions.Keys == s.executions.Keys && t.workers == s.workers[w := Idle]
  {
  }

  /** Worker 0 stands before its call, worker 1 is idle, and the action can be claimed again. */
  predicate Waiting(h: Payload -> string, s: System, id: ActionId, job: ClaimedJob, key: Key, attempts: nat) {
    && PhaseOf(s, 0) == Reserved(job, key) && PhaseOf(s, 1).Idle? && job.id == id
    && id in s.actions && s.actions[id].hash == h(s.actions[id].payload) && key == IdempotencyKey(id, s.actions[id].hash)
    && key in s.executions
    && id in s.decisions && s.decisions[id].approved && s.decisions[id].approver != s.actions[id].requester
    && s.decisions[id].approvedHash == s.actions[id].hash
    && id in s.jobs && s.jobs[id].attempts == attempts
  }

  /** The two rounds of worker 1, with the backoff between them. */
  function TwoRetries(id: ActionId): seq<Event> {
    RetryRound(1, id) + [Tick(120)] + RetryRound(1, id)
  }

  lemma TwoRetriesFail(h: Payload -> string, s: System, id: ActionId, job: ClaimedJob, key: Key)
    requires Waiting(h, s, id, job, key, 1) && Claimable(s, id) && s.actions[id].state == Approved
    requires s.now + 120 <= s.actions[id].expiresAt
    ensures var t := After(h, s, TwoRetries(id));
      Waiting(h, t, id, job, key, 3) && t.actions[id].state == Failed && t.effects == s.effects
  {
    RetryRoundFails(h, s, 1, id);
    var a := After(h, s, RetryRound(1, id));
    assert Pow2(2) == 4;
    var b := a.(now := a.now + 120);
    OneEvent(h, a, Tick(120));
    AfterConcat(h, s, RetryRound(1, id), [Tick(120)]);
    assert PhaseOf(b, 0) == PhaseOf(s, 0) && Claimable(b, id);
    RetryRoundFails(h, b, 1, id);
    AfterConcat(h, s, RetryRound(1, id) + [Tick(120)], RetryRound(1, id));
  }

  /** While one worker stands before its call, two retries by another use up the attempts. */
  function SlowHolder(h: Payload -> string, id: ActionId, alice: UserId, fiona: UserId, payload: Payload): seq<Event> {
    UpToReservation(h, id, alice, fiona, payload, 1000) + [Tick(6)] + TwoRetries(id)
    + CallTurn(0, Script(true, Answered(OutSucceeded), false, false))
  }

  lemma SlowHolderWaits(h: Payload -> string, id: ActionId, alice: UserId, fiona: UserId, payload: Payload)
    requires ':' !in id && alice != fiona
    ensures var s := After(h, EMPTY, UpToReservation(h, id, alice, fiona, payload, 1000) + [Tick(6)]);
      && PhaseOf(s, 0).Reserved? && Waiting(h, s, id, PhaseOf(s, 0).job, IdempotencyKey(id, h(payload)), 1)
      && Claimable(s, id) && s.actions[id].state == Approved && s.now + 120 <= s.actions[id].expiresAt
  {
    var first := UpToReservation(h, id, alice, fiona, payload, 1000);
    ReservationReached(h, id, alice, fiona, payload, 1000);
    OneEvent(h, After(h, EMPTY, first), Tick(6));
    AfterConcat(h, EMPTY, first, [Tick(6)]);
  }

  /**
   From the empty system, without an error anywhere: the third failure is recorded while the first
   worker is still between its reservation and its call, and the call then lands and succeeds.
   */
  lemma SlowHolderHidesTheEffect(h: Payload -> string, id: ActionId, alice: UserId, fiona: UserId, payload: Payload)
    requires ':' !in id && alice != fiona
    ensures var t := After(h, EMPTY, SlowHolder(h, id, alice, fiona, payload));
      id in t.actions && t.actions[id].state == Failed && Landed(t, IdempotencyKey(id, h(payload)))
  {
    var first := UpToReservation(h, id, alice, fiona, payload, 1000) + [Tick(6)];
    SlowHolderWaits(h, id, alice, fiona, payload);
    var s := After(h, EMPTY, first);
    TwoRetriesFail(h, s, id, PhaseOf(s, 0).job, IdempotencyKey(id, h(payload)));
    AfterConcat(h, EMPTY, first, TwoRetries(id));
    EmptyOk(h);
    RunKeeps(h, EMPTY, first + TwoRetries(id));
    var end := CallTurn(0, Script(true, Answered(OutSucceeded), false, false));
    FailedHidesExactly(h, After(h, s, TwoRetries(id)), 0, Script(true, Answered(OutSucceeded), false, false));
    AfterConcat(h, EMPTY, first + TwoRetries(id), end);
  }

  // ---------------------------------------------------------------------------------------------
  // When a key can still land
  // ---------------------------------------------------------------------------------------------

  ghost predicate Holder(s: System, key: Key, w: WorkerId) {
    PhaseOf(s, w).Reserved? && PhaseOf(s, w).key == key
  }

  /**
   A reserved key under which nothing has landed can still land exactly while some worker stands
   between reserving it and calling with it.
   */
  lemma CanStillLandExactly(h: Payload -> string, s: System, key: Key)
    requires key in s.executions && !Landed(s, key)
    ensures (exists events :: Landed(After(h, s, events), key)) <==> exists w :: Holder(s, key, w)
  {
    if w :| Holder(s, key, w) {
      var job := PhaseOf(s, w).job;
      var t := DoCall(s, w, job, key, true, Raised);
      assert Next(h, s, Call(w, true, Raised)) == t;
      OneEvent(h, s, Call(w, true, Raised));
      assert t.effects[|s.effects|].key == key;
      assert Landed(After(h, s, [Call(w, true, Raised)]), key);
    } else {
      assert Spent(s, key) by {
        forall w ensures !(PhaseOf(s, w).Reserved? && PhaseOf(s, w).key == key) {
          assert !Holder(s, key, w);
        }
      }
      forall events ensures !Landed(After(h, s, events), key) {
        SpentForever(h, s, events, key);
      }
    }
  }

  // ---------------------------------------------------------------------------------------------
  // When an action is stuck
  // ---------------------------------------------------------------------------------------------

  /** An action in the workers' hands has a job that is not closed. */
  predicate JobOpen(s: System, id: ActionId) {
    id in s.actions && s.actions[id].state in {Approved, Queued, Executing} ==>
      id in s.jobs && s.jobs[id].state in {JobQueued, JobExecuting}
  }

  ghost predicate JobsOpen(s: System) {
    forall id :: JobOpen(s, id)
  }

  lemma CloseKeepsJobOpen(s: System, job: ClaimedJob, jobState: JobState, actionState: ActionState, backoff: nat, id: ActionId)
    requires JobOpen(s, id)
    requires actionState in {Approved, Queued, Executing} ==> jobState in {JobQueued, JobExecuting}
    ensures JobOpen(Close(s, job, jobState, actionState, backoff), id)
  {
  }

  lemma RecordKeepsJobOpen(s: System, job: ClaimedJob, key: Key, outcome: Outcome, id: ActionId)
    requires JobOpen(s, id)
    ensures JobOpen(DoRecord(s, job, key, outcome), id)
  {
    CloseKeepsJobOpen(s.(executions := s.executions[key := outcome]), job, JobStateAfter(job, outcome),
                      ActionStateAfter(job, outcome), 30 * Pow2(job.attempts), id);
  }

  lemma NextKeepsJobOpen(h: Payload -> string, s: System, e: Event, id: ActionId)
    requires Inv(h, s) && JobOpen(s, id)
    ensures JobOpen(Next(h, s, e), id)
  {
    assert RowOk(s, id);
    if Enabled(s, e) {
      if e.Record? {
        RecordKeepsJobOpen(s, PhaseOf(s, e.w).job, PhaseOf(s, e.w).key, PhaseOf(s, e.w).outcome, id);
      } else if e.Refuse? {
        CloseKeepsJobOpen(s, PhaseOf(s, e.w).job, JobFailed, Failed, 0, id);
      }
    }
  }

  lemma {:induction false} RunKeepsJobsOpen(h: Payload -> string, s: System, events: seq<Event>)
    requires Inv(h, s) && JobsOpen(s)
    ensures JobsOpen(After(h, s, events))
    decreases |events|
  {
    if events != [] {
      forall id ensures JobOpen(Next(h, s, events[0]), id) {
        assert JobOpen(s, id);
        NextKeepsJobOpen(h, s, events[0], id);
      }
      NextKeeps(h, s, events[0]);
      RunKeepsJobsOpen(h, Next(h, s, events[0]), events[1..]);
    }
  }

  /** An exception in the worker that holds the job closes the action. */
  lemma HolderCloses(h: Payload -> string, s: System, w: WorkerId)
    requires !PhaseOf(s, w).Idle? && PhaseOf(s, w).job.id in s.actions
    requires s.actions[PhaseOf(s, w).job.id].state in {Approved, Executing}
    ensures var id := PhaseOf(s, w).job.id;
      exists events :: id in After(h, s, events).actions && Final(After(h, s, events).actions[id].state)
  {
    var id := PhaseOf(s, w).job.id;
    if PhaseOf(s, w).Refusing? {
      OneEvent(h, s, Refuse(w));
      RefusedState(h, s, w);
      assert Final(After(h, s, [Refuse(w)]).actions[id].state);
    } else {
      var t := Move(s, w, Refusing(PhaseOf(s, w).job));
      assert Next(h, s, Fault(w)) == t;
      TwoEvents(h, s, Fault(w), Refuse(w));
      RefusedState(h, t, w);
      assert Final(After(h, s, [Fault(w), Refuse(w)]).actions[id].state);
    }
  }

  lemma {:induction false} SomeWorkerIsIdle(workers: set<WorkerId>) returns (w: WorkerId)
    ensures w !in workers && forall v :: v in workers ==> v < w
  {
    if workers == {} {
      w := 0;
    } else {
      var v :| v in workers;
      w := SomeWorkerIsIdle(workers - {v});
      w := if w <= v then v + 1 else w;
      assert forall u :: u in workers ==> u == v || u in workers - {v};
    }
  }

  /** How long until the job's backoff and its lease have both run out. */
  function Patience(s: System, id: ActionId): nat
    requires id in s.jobs
  {
    (if s.jobs[id].availableAt > s.now then s.jobs[id].availableAt - s.now else 0)
    + (if s.jobs[id].leaseExpires >= s.now then s.jobs[id].leaseExpires - s.now + 1 else 0)
  }

  lemma WaitsAndClaims(h: Payload -> string, s: System, w: WorkerId, id: ActionId)
    requires id in s.actions && s.actions[id].state in {Approved, Executing} && PhaseOf(s, w).Idle?
    requires JobOpen(s, id) && s.jobs[id].attempts < MAX_ATTEMPTS
    ensures var t := After(h, s, [Tick(Patience(s, id)), Claim(w, id, 5)]);
      !PhaseOf(t, w).Idle? && PhaseOf(t, w).job.id == id && t.actions == s.actions
  {
    var later := Patience(s, id);
    var t := s.(now := s.now + later);
    assert Next(h, s, Tick(later)) == t && Claimable(t, id);
    TwoEvents(h, s, Tick(later), Claim(w, id, 5));
  }

  /** A job with an attempt left is claimed once its lease or its backoff has run out. */
  lemma NextClaimCloses(h: Payload -> string, s: System, id: ActionId)
    requires id in s.actions && s.actions[id].state in {Approved, Executing}
    requires JobOpen(s, id) && s.jobs[id].attempts < MAX_ATTEMPTS
    ensures exists events :: id in After(h, s, events).actions && Final(After(h, s, events).actions[id].state)
  {
    var w := SomeWorkerIsIdle(s.workers.Keys);
    var first := [Tick(Patience(s, id)), Claim(w, id, 5)];
    WaitsAndClaims(h, s, w, id);
    var u := After(h, s, first);
    HolderCloses(h, u, w);
    var rest :| id in After(h, u, rest).actions && Final(After(h, u, rest).actions[id].state);
    AfterConcat(h, s, first, rest);
    assert Final(After(h, s, first + rest).actions[id].state);
  }

  /**
   In any reached state, an action in the workers' hands is stuck, so that nothing at all ever closes
   it, exactly when its last lease is spent and no worker holds it.
   */
  lemma StuckExactlyWhenOrphaned(h: Payload -> string, before: seq<Event>, id: ActionId)
    requires var s := After(h, EMPTY, before); id in s.actions && s.actions[id].state in {Approved, Executing}
    ensures var s := After(h, EMPTY, before);
      Orphaned(s, id)
      <==> forall events :: id in After(h, s, events).actions ==> !Final(After(h, s, events).actions[id].state)
  {
    var s := After(h, EMPTY, before);
    EmptyOk(h);
    RunKeeps(h, EMPTY, before);
    RunKeepsJobsOpen(h, EMPTY, before);
    assert RowOk(s, id) && JobOpen(s, id);
    if Orphaned(s, id) {
      forall events ensures id in After(h, s, events).actions ==> !Final(After(h, s, events).actions[id].state) {
        OrphanForever(h, s, events, id);
      }
    } else if s.jobs[id].attempts < MAX_ATTEMPTS {
      NextClaimCloses(h, s, id);
    } else {
      var w :| !PhaseOf(s, w).Idle? && PhaseOf(s, w).job.id == id;
      HolderCloses(h, s, w);
    }
  }
}
