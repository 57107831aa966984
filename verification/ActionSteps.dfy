/**
 What decides each step of the action queue, in every reached state, in terms of the tables alone:
 an approval, a claim, the checks before execution, a reply, a record.
 */
module ActionSteps {
  import opened Wrappers
  import opened CanonicalJson
  import opened ActionProtocol

  lemma Reached(h: Payload -> string, before: seq<Event>)
    ensures Inv(h, After(h, EMPTY, before))
  {
    EmptyOk(h);
    RunKeeps(h, EMPTY, before);
  }

  /** One action of the tables, and whatever else there is as it was. */
  ghost predicate OnlyAction(s: System, t: System, id: ActionId) {
    && t == s.(actions := t.actions, decisions := t.decisions, jobs := t.jobs)
    && t.actions.Keys == s.actions.Keys
    && forall x :: x != id ==>
                     && (x in s.actions ==> t.actions[x] == s.actions[x])
                     && (x in t.decisions <==> x in s.decisions) && (x in s.decisions ==> t.decisions[x] == s.decisions[x])
                     && (x in t.jobs <==> x in s.jobs) && (x in s.jobs ==> t.jobs[x] == s.jobs[x])
  }

  /**
   A decision counts if and only if somebody other than the requester makes it on a pending, unexpired
   action and presents its hash. Then it is on record, and a job is queued exactly for an approval.
   */
  lemma DecisionCountsExactly(h: Payload -> string, before: seq<Event>, id: ActionId, approver: UserId, approved: bool,
                              presented: string)
    ensures var s := After(h, EMPTY, before);
      var t := Next(h, s, Decide(id, approver, approved, presented));
      var counts := && id in s.actions && s.actions[id].state == PendingApproval && s.now < s.actions[id].expiresAt
                    && presented == s.actions[id].hash && approver != s.actions[id].requester;
      && (counts <==> t != s)
      && (counts ==>
            && OnlyAction(s, t, id)
            && id in t.actions && t.actions[id] == s.actions[id].(state := if approved then Approved else Rejected)
            && id in t.decisions && t.decisions[id] == Decision(approver, approved, presented)
            && (id in t.jobs <==> approved) && (approved ==> t.jobs[id] == Job(JobQueued, 0, 0, s.now)))
  {
    Reached(h, before);
    var s := After(h, EMPTY, before);
    assert RowOk(s, id);
  }

  /** A claimed job holds what the action's row said in the moment of the claim. */
  lemma ClaimReadsTheRow(h: Payload -> string, s: System, w: WorkerId, id: ActionId, lease: nat)
    requires PhaseOf(s, w).Idle?
    ensures var t := Next(h, s, Claim(w, id, lease));
      (PhaseOf(t, w).HasJob? <==> t != s)
      && (t != s ==>
            var job := PhaseOf(t, w).job;
            && id in s.actions && id in s.jobs && job.id == id && job.attempts == s.jobs[id].attempts + 1
            && (job.payload, job.hash, job.state) == (s.actions[id].payload, s.actions[id].hash, s.actions[id].state)
            && (job.requester, job.expiresAt) == (s.actions[id].requester, s.actions[id].expiresAt)
            && t == s.(jobs := t.jobs, workers := t.workers) && t.jobs == s.jobs[id := t.jobs[id]])
  {
  }

  /**
   What becomes of a claimed job at the checks, in every reached state: it goes on, under the key of its
   action and hash, if and only if its state allows it, the approval has not expired, and the hashes of
   the payload, of the row and of the decision are one.
   */
  lemma ChecksPassExactly(h: Payload -> string, before: seq<Event>, w: WorkerId)
    requires PhaseOf(After(h, EMPTY, before), w).HasJob?
    ensures var s := After(h, EMPTY, before);
      var job, p := PhaseOf(s, w).job, PhaseOf(Next(h, s, Verify(w)), w);
      && job.id in s.decisions
      && (p.Verified? <==> && job.state in {Approved, Queued, Executing} && s.now <= job.expiresAt
                           && h(job.payload) == job.hash && s.decisions[job.id].approvedHash == job.hash)
      && (p.Verified? ==> p.job == job && p.key == job.id + ":" + (if |job.hash| > 32 then job.hash[..32] else job.hash))
      && (!p.Verified? ==> p == Refusing(job))
  {
    Reached(h, before);
    var s := After(h, EMPTY, before);
    var job := PhaseOf(s, w).job;
    assert PhaseOk(h, s, PhaseOf(s, w));
    assert RowOk(s, job.id);
  }

  /** The first check that fails names the refusal. */
  lemma RefusalIsExact(h: Payload -> string, s: System, job: ClaimedJob)
    ensures var r := Checks(h, s, job);
      var decision := if job.id in s.decisions then Some(s.decisions[job.id]) else None;
      var open := job.state == Approved || job.state == Queued || job.state == Executing;
      var independent := decision.Some? && decision.value.approved && decision.value.approver != job.requester;
      && (r == Err(StateForbids) <==> !open)
      && (r == Err(NoDecision) <==> open && decision.None?)
      && (r == Err(NotApproved) <==> open && decision.Some? && !decision.value.approved)
      && (r == Err(SelfApproval) <==> open && decision.Some? && decision.value.approved && !independent)
      && (r == Err(Expired) <==> open && independent && s.now > job.expiresAt)
      && (r == Err(StoredHashMismatch) <==> open && independent && s.now <= job.expiresAt && job.hash != h(job.payload))
      && (r == Err(ApprovedHashMismatch)
          <==> && open && independent && s.now <= job.expiresAt && job.hash == h(job.payload)
               && job.hash != decision.value.approvedHash)
  {
  }

  /** A free key is reserved, unclear until something is recorded; a taken one is asked about, and keeps what is recorded. */
  lemma ReserveDecidesExactly(h: Payload -> string, s: System, w: WorkerId)
    requires PhaseOf(s, w).Verified?
    ensures var p, t := PhaseOf(s, w), Next(h, s, Reserve(w));
      && (PhaseOf(t, w) == Reserved(p.job, p.key) <==> p.key !in s.executions)
      && (PhaseOf(t, w) == Reconciling(p.job, p.key) <==> p.key in s.executions)
      && t == s.(executions := t.executions, workers := t.workers)
      && p.key in t.executions && t.executions.Keys == s.executions.Keys + {p.key}
      && (forall key :: key in s.executions ==> t.executions[key] == s.executions[key])
      && (p.key !in s.executions ==> t.executions[p.key] == OutAmbiguous)
  {
  }

  /** Where a worker stands after the provider's reply, or after asking it: only what is unclear is asked about. */
  lemma ReplyDecidesExactly(h: Payload -> string, s: System, w: WorkerId, landed: bool, reply: Reply)
    requires PhaseOf(s, w).Reserved? && (reply == Answered(OutSucceeded) ==> landed)
    ensures var p, t := PhaseOf(s, w), Next(h, s, Call(w, landed, reply));
      && t.calls == s.calls + [p.key]
      && t.effects == (if landed then s.effects + [Effect(p.job.id, p.key, p.job.payload)] else s.effects)
      && (PhaseOf(t, w) == Reconciling(p.job, p.key) <==> reply == Answered(OutAmbiguous))
      && (PhaseOf(t, w) == Refusing(p.job) <==> reply == Raised)
      && (PhaseOf(t, w) == Recording(p.job, p.key, OutSucceeded) <==> reply == Answered(OutSucceeded))
      && (PhaseOf(t, w) == Recording(p.job, p.key, OutFailed) <==> reply == Answered(OutFailed))
  {
  }

  /** What the provider does not know of has failed; what it knows of is recorded as it says. */
  lemma LookupDecidesExactly(h: Payload -> string, s: System, w: WorkerId, observed: Option<Outcome>)
    requires PhaseOf(s, w).Reconciling? && (observed == Some(OutSucceeded) ==> Landed(s, PhaseOf(s, w).key))
    ensures var p, t := PhaseOf(s, w), Next(h, s, Lookup(w, observed));
      && PhaseOf(t, w).Recording? && PhaseOf(t, w).job == p.job && PhaseOf(t, w).key == p.key
      && (PhaseOf(t, w).outcome == OutFailed <==> observed.None? || observed == Some(OutFailed))
      && (PhaseOf(t, w).outcome == OutSucceeded <==> observed == Some(OutSucceeded))
      && t == s.(workers := t.workers)
  {
  }

  /**
   What recording an outcome makes of job and action, in every reached state: done exactly for a success,
   put back exactly for a failure of the first or second attempt, and otherwise given up.
   */
  lemma RecordDecidesExactly(h: Payload -> string, before: seq<Event>, w: WorkerId)
    requires PhaseOf(After(h, EMPTY, before), w).Recording?
    ensures var s := After(h, EMPTY, before);
      var p, t := PhaseOf(s, w), Next(h, s, Record(w));
      var id, retried := p.job.id, p.outcome == OutFailed && p.job.attempts in {0, 1, 2};
      && id in s.jobs && id in t.jobs && id in s.actions && id in t.actions
      && p.key in t.executions && t.executions[p.key] == p.outcome && PhaseOf(t, w).Idle?
      && (t.jobs[id].state == JobSucceeded <==> p.outcome == OutSucceeded)
      && (t.jobs[id].state == JobQueued <==> retried)
      && (t.jobs[id].state == JobFailed <==> p.outcome != OutSucceeded && !retried)
      && t.jobs[id].attempts == s.jobs[id].attempts
      && (s.actions[id].state in {Approved, Executing} ==>
            && (t.actions[id].state == Succeeded <==> p.outcome == OutSucceeded)
            && (t.actions[id].state == Executing <==> retried)
            && (t.actions[id].state == Failed <==> p.outcome != OutSucceeded && !retried))
      && (s.actions[id].state !in {Approved, Executing} ==> t.actions == s.actions)
  {
    Reached(h, before);
    var s := After(h, EMPTY, before);
    var p := PhaseOf(s, w);
    assert PhaseOk(h, s, PhaseOf(s, w));
    assert RowOk(s, p.job.id);
    assert ActionShape(s, p.job.id);
  }

  // ---------------------------------------------------------------------------------------------
  // A whole turn
  // ---------------------------------------------------------------------------------------------

  /** The job may be taken now: it has an attempt left, and waits for nothing, or its lease is over. */
  predicate Ripe(s: System, id: ActionId) {
    && id in s.actions && id in s.jobs && s.jobs[id].attempts in {0, 1, 2}
    && match s.jobs[id].state
       case JobQueued => s.now >= s.jobs[id].availableAt
       case JobExecuting => s.now > s.jobs[id].leaseExpires
       case _ => false
  }

  /** A turn takes a ripe job that has been available for as long as any, and none exactly if none is ripe. */
  lemma ChosenExactly(s: System, taken: Option<ActionId>)
    ensures taken.None? ==> (Chosen(s, taken) <==> forall id :: id in s.actions ==> !Ripe(s, id))
    ensures taken.Some? ==>
              (Chosen(s, taken) <==>
                && Ripe(s, taken.value)
                && forall other :: Ripe(s, other) ==> s.jobs[taken.value].availableAt <= s.jobs[other].availableAt)
  {
    forall id ensures Ripe(s, id) <==> Claimable(s, id) && id in s.actions {
    }
  }

  lemma RecordEnds(h: Payload -> string, s: System, w: WorkerId)
    requires PhaseOf(s, w).Recording? && PhaseOf(s, w).job.id in s.jobs
    ensures var p, t := PhaseOf(s, w), Next(h, s, Record(w));
      && t.calls == s.calls && PhaseOf(t, w).Idle? && p.job.id in t.jobs
      && t.jobs[p.job.id].state
         == if p.outcome == OutSucceeded then JobSucceeded
            else if p.outcome == OutFailed && p.job.attempts < 3 then JobQueued else JobFailed
  {
  }

  lemma LookupEnds(h: Payload -> string, s: System, w: WorkerId, raises: bool)
    requires PhaseOf(s, w).Reconciling? && PhaseOf(s, w).job.id in s.jobs
    ensures var p := PhaseOf(s, w); var t := Looked(h, s, w, p.key, raises);
      && t.calls == s.calls && p.job.id in t.jobs
      && (raises ==> PhaseOf(t, w) == Refusing(p.job))
      && (!raises ==>
            && PhaseOf(t, w).Idle?
            && t.jobs[p.job.id].state
               == if Landed(s, p.key) then JobSucceeded else if p.job.attempts < 3 then JobQueued else JobFailed)
  {
    var key := PhaseOf(s, w).key;
    if !raises {
      LookupDecidesExactly(h, s, w, Observed(Landed(s, key)));
      RecordEnds(h, Next(h, s, Lookup(w, Observed(Landed(s, key)))), w);
    }
  }

  lemma CallLeavesJobs(h: Payload -> string, s: System, w: WorkerId, script: Script)
    ensures Next(h, s, Call(w, script.landed, script.reply)).jobs == s.jobs
  {
  }

  lemma CallEnds(h: Payload -> string, s: System, w: WorkerId, script: Script)
    requires PhaseOf(s, w).Reserved? && PhaseOf(s, w).job.id in s.jobs && script.Honest() && !Landed(s, PhaseOf(s, w).key)
    ensures var p := PhaseOf(s, w); var t := Called(h, s, w, p.key, script);
      var unclear := script.reply == Answered(OutAmbiguous);
      var raised := script.reply == Raised || (unclear && script.lookupRaises);
      && t.calls == s.calls + [p.key] && p.job.id in t.jobs
      && (raised ==> PhaseOf(t, w) == Refusing(p.job))
      && (!raised ==>
            && PhaseOf(t, w).Idle?
            && t.jobs[p.job.id].state
               == if script.reply == Answered(OutSucceeded) || (unclear && script.landed) then JobSucceeded
                  else if p.job.attempts < 3 then JobQueued else JobFailed)
  {
    var p, t := PhaseOf(s, w), Next(h, s, Call(w, script.landed, script.reply));
    ReplyDecidesExactly(h, s, w, script.landed, script.reply);
    LandsExactly(s, t, p.job, p.key, script.landed);
    CallLeavesJobs(h, s, w, script);
    if script.reply == Answered(OutAmbiguous) {
      LookupEnds(h, t, w, script.lookupRaises);
    } else if script.reply.Answered? {
      RecordEnds(h, t, w);
    }
  }

  lemma LandsExactly(s: System, t: System, job: ClaimedJob, key: Key, landed: bool)
    requires !Landed(s, key) && t.effects == (if landed then s.effects + [Effect(job.id, key, job.payload)] else s.effects)
    ensures Landed(t, key) <==> landed
  {
    if landed {
      assert t.effects[|s.effects|].key == key;
    }
  }

  lemma ExecuteEnds(h: Payload -> string, s: System, w: WorkerId, script: Script)
    requires PhaseOf(s, w).Verified? && PhaseOf(s, w).job.id in s.jobs && script.Honest()
    requires PhaseOf(s, w).key !in s.executions ==> !Landed(s, PhaseOf(s, w).key)
    ensures var p := PhaseOf(s, w); var t := Executed(h, s, w, p.key, script);
      var taken, unclear := p.key in s.executions, script.reply == Answered(OutAmbiguous);
      var raised := if taken then script.lookupRaises else script.reply == Raised || (unclear && script.lookupRaises);
      var done := if taken then Landed(s, p.key) else script.reply == Answered(OutSucceeded) || (unclear && script.landed);
      && t.calls == s.calls + (if taken then [] else [p.key]) && p.job.id in t.jobs
      && (raised ==> PhaseOf(t, w) == Refusing(p.job))
      && (!raised ==>
            && PhaseOf(t, w).Idle?
            && t.jobs[p.job.id].state == if done then JobSucceeded else if p.job.attempts < 3 then JobQueued else JobFailed)
  {
    var p, t := PhaseOf(s, w), Next(h, s, Reserve(w));
    ReserveDecidesExactly(h, s, w);
    if p.key in s.executions {
      LookupEnds(h, t, w, script.lookupRaises);
    } else {
      CallEnds(h, t, w, script);
    }
  }

  lemma RefuseEnds(h: Payload -> string, s: System, w: WorkerId)
    requires PhaseOf(s, w).Refusing? && PhaseOf(s, w).job.id in s.jobs
    ensures var t, id := Next(h, s, Refuse(w)), PhaseOf(s, w).job.id;
      PhaseOf(t, w).Idle? && t.calls == s.calls && id in t.jobs && t.jobs[id].state == JobFailed
  {
  }

  /** Under what key the turn gets as far as executing. */
  function Passed(h: Payload -> string, s: System, job: ClaimedJob, script: Script): Option<Key> {
    if script.verifyRaises || Checks(h, s, job).Err? then None else Some(Checks(h, s, job).value)
  }

  /** The turn ends in a refusal: a check fails, or the checks, the call or a lookup raise. */
  predicate Refused(h: Payload -> string, s: System, job: ClaimedJob, script: Script) {
    match Passed(h, s, job, script)
    case None => true
    case Some(key) =>
      || (key in s.executions && script.lookupRaises)
      || (key !in s.executions && script.reply == Raised)
      || (key !in s.executions && script.reply == Answered(OutAmbiguous) && script.lookupRaises)
  }

  /** The turn finds out that the provider acted. */
  predicate FoundDone(s: System, key: Key, script: Script) {
    if key in s.executions then Landed(s, key)
    else script.reply == Answered(OutSucceeded) || (script.reply == Answered(OutAmbiguous) && script.landed)
  }

  /**
   How a turn with a claimed job ends, in every reached state: the worker is free again, the provider was
   called exactly if the checks passed and the key was free, and the job has failed exactly if the turn
   was refused or failed on its last attempt, is done exactly if the provider was found to have acted,
   and is put back otherwise.
   */
  lemma TurnEndsExactly(h: Payload -> string, before: seq<Event>, w: WorkerId, script: Script)
    requires PhaseOf(After(h, EMPTY, before), w).HasJob? && script.Honest()
    ensures var s := After(h, EMPTY, before); var job := PhaseOf(s, w).job;
      var t, passed := Processed(h, s, w, job, script), Passed(h, s, job, script);
      && PhaseOf(t, w).Idle? && job.id in t.jobs
      && t.calls == s.calls + (if passed.Some? && passed.value !in s.executions then [passed.value] else [])
      && (Refused(h, s, job, script) ==> t.jobs[job.id].state == JobFailed)
      && (!Refused(h, s, job, script) ==>
            t.jobs[job.id].state == if FoundDone(s, passed.value, script) then JobSucceeded
                                    else if job.attempts < 3 then JobQueued else JobFailed)
  {
    Reached(h, before);
    var s := After(h, EMPTY, before);
    var job := PhaseOf(s, w).job;
    assert PhaseOk(h, s, PhaseOf(s, w));
    var t := Next(h, s, Verify(w));
    if script.verifyRaises {
      RefuseEnds(h, Next(h, s, Fault(w)), w);
    } else if Checks(h, s, job).Err? {
      RefuseEnds(h, t, w);
    } else {
      var key := Checks(h, s, job).value;
      if key !in s.executions {
        FreeKeyNeverLanded(h, s, key);
      }
      assert Landed(t, key) <==> Landed(s, key);
      ExecuteEnds(h, t, w, script);
      if Refused(h, s, job, script) {
        RefuseEnds(h, Executed(h, t, w, key, script), w);
      }
    }
  }

  lemma FreeKeyNeverLanded(h: Payload -> string, s: System, key: Key)
    requires Inv(h, s) && key !in s.executions
    ensures !Landed(s, key)
  {
    assert ExecutionOk(s, key);
    forall i | 0 <= i < |s.effects| ensures s.effects[i].key != key {
      assert EffectOk(h, s, i);
    }
  }
}
