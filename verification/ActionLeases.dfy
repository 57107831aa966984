/**
 What a lease and a backoff promise: while one runs, the job stays as it is and comes to no other
 worker, whatever else happens; as soon as it is over, any idle worker may take the job.
 */
module ActionLeases {
  import opened Wrappers
  import opened CanonicalJson
  import opened ActionProtocol

  predicate HasTaken(s: System, w: WorkerId, id: ActionId) {
    !PhaseOf(s, w).Idle? && PhaseOf(s, w).job.id == id
  }

  /** A worker that holds the job writes how its attempt ended. */
  predicate Ends(s: System, e: Event, id: ActionId) {
    (e.Record? || e.Refuse?) && HasTaken(s, e.w, id)
  }

  ghost predicate NoneEnds(h: Payload -> string, s: System, events: seq<Event>, id: ActionId)
    decreases |events|
  {
    events == [] || (!Ends(s, events[0], id) && NoneEnds(h, Next(h, s, events[0]), events[1..], id))
  }

  /** How much time passes. */
  function Waits(events: seq<Event>): nat {
    if events == [] then 0 else (if events[0].Tick? then events[0].delta else 0) + Waits(events[1..])
  }

  /** The job has a lease or a backoff that is not over after another `wait`. */
  predicate Guarded(s: System, id: ActionId, wait: nat) {
    id in s.jobs
    && match s.jobs[id].state
       case JobExecuting => s.now + wait <= s.jobs[id].leaseExpires
       case JobQueued => s.now + wait < s.jobs[id].availableAt
       case _ => true
  }

  /** The job is as it was, and nobody holds it who did not. */
  ghost predicate Undisturbed(s: System, t: System, id: ActionId) {
    && id in s.jobs && id in t.jobs && t.jobs[id] == s.jobs[id]
    && forall w :: HasTaken(t, w, id) ==> HasTaken(s, w, id)
  }

  lemma StepUndisturbed(h: Payload -> string, s: System, e: Event, id: ActionId)
    requires Guarded(s, id, if e.Tick? then e.delta else 0) && !Ends(s, e, id)
    ensures Undisturbed(s, Next(h, s, e), id)
    ensures Next(h, s, e).now == s.now + if e.Tick? then e.delta else 0
  {
  }

  lemma {:induction false} GuardedStays(h: Payload -> string, s: System, events: seq<Event>, id: ActionId)
    requires Guarded(s, id, Waits(events)) && NoneEnds(h, s, events, id)
    ensures Undisturbed(s, After(h, s, events), id)
    decreases |events|
  {
    if events != [] {
      StepUndisturbed(h, s, events[0], id);
      GuardedStays(h, Next(h, s, events[0]), events[1..], id);
    }
  }

  /**
   A worker that has claimed a job has it to itself for as long as its lease: in every run that takes
   no longer, and in which no holder writes an end, the job stays as claimed and no further worker
   comes to hold it.
   */
  lemma LeaseExcludes(h: Payload -> string, s: System, w: WorkerId, id: ActionId, lease: nat, events: seq<Event>)
    requires PhaseOf(s, w).Idle? && HasTaken(Next(h, s, Claim(w, id, lease)), w, id)
    requires var t := Next(h, s, Claim(w, id, lease)); Waits(events) <= lease && NoneEnds(h, t, events, id)
    ensures var t := Next(h, s, Claim(w, id, lease));
      && id in s.jobs && id in t.jobs
      && t.jobs[id] == Job(JobExecuting, s.jobs[id].attempts + 1, s.now + lease, s.jobs[id].availableAt)
      && Undisturbed(t, After(h, t, events), id)
  {
    GuardedStays(h, Next(h, s, Claim(w, id, lease)), events, id);
  }

  /** And no longer: after waiting, an idle worker gets the job exactly if the lease is over and an attempt is left. */
  lemma LeaseEndsExactly(h: Payload -> string, s: System, w: WorkerId, id: ActionId, lease: nat, wait: nat, v: WorkerId,
                         next: nat)
    requires PhaseOf(s, w).Idle? && HasTaken(Next(h, s, Claim(w, id, lease)), w, id)
    requires v != w && PhaseOf(s, v).Idle?
    ensures HasTaken(After(h, s, [Claim(w, id, lease), Tick(wait)] + [Claim(v, id, next)]), v, id)
            <==> wait > lease && id in s.jobs && s.jobs[id].attempts + 1 < MAX_ATTEMPTS
  {
    TwoEvents(h, s, Claim(w, id, lease), Tick(wait));
    LastEvent(h, s, [Claim(w, id, lease), Tick(wait)], Claim(v, id, next));
  }

  /** The state a recorded failure with attempts left puts the job in. */
  lemma PutBack(h: Payload -> string, s: System, w: WorkerId)
    requires PhaseOf(s, w).Recording? && PhaseOf(s, w).outcome == OutFailed && PhaseOf(s, w).job.id in s.jobs
    requires PhaseOf(s, w).job.attempts < MAX_ATTEMPTS
    ensures var t, job := Next(h, s, Record(w)), PhaseOf(s, w).job;
      && job.id in t.jobs && t.now == s.now && PhaseOf(t, w).Idle?
      && t.jobs[job.id] == Job(JobQueued, s.jobs[job.id].attempts, 0, s.now + 30 * Pow2(job.attempts))
      && forall v :: v != w ==> PhaseOf(t, v) == PhaseOf(s, v)
  {
  }

  /** A job put back by a recorded failure rests until its backoff is over. */
  lemma BackoffHolds(h: Payload -> string, s: System, w: WorkerId, events: seq<Event>)
    requires PhaseOf(s, w).Recording? && PhaseOf(s, w).outcome == OutFailed && PhaseOf(s, w).job.id in s.jobs
    requires PhaseOf(s, w).job.attempts < MAX_ATTEMPTS
    requires Waits(events) < 30 * Pow2(PhaseOf(s, w).job.attempts)
    requires NoneEnds(h, Next(h, s, Record(w)), events, PhaseOf(s, w).job.id)
    ensures var t := Next(h, s, Record(w)); Undisturbed(t, After(h, t, events), PhaseOf(s, w).job.id)
  {
    PutBack(h, s, w);
    GuardedStays(h, Next(h, s, Record(w)), events, PhaseOf(s, w).job.id);
  }

  /** And no longer than that. */
  lemma BackoffEndsExactly(h: Payload -> string, s: System, w: WorkerId, wait: nat, v: WorkerId, lease: nat)
    requires PhaseOf(s, w).Recording? && PhaseOf(s, w).outcome == OutFailed && PhaseOf(s, w).job.id in s.jobs
    requires PhaseOf(s, w).job.attempts < MAX_ATTEMPTS && PhaseOf(s, w).job.id in s.actions
    requires v != w && PhaseOf(s, v).Idle?
    ensures var id := PhaseOf(s, w).job.id;
      HasTaken(After(h, s, [Record(w), Tick(wait)] + [Claim(v, id, lease)]), v, id)
      <==> wait >= 30 * Pow2(PhaseOf(s, w).job.attempts) && s.jobs[id].attempts < MAX_ATTEMPTS
  {
    PutBack(h, s, w);
    TwoEvents(h, s, Record(w), Tick(wait));
    LastEvent(h, s, [Record(w), Tick(wait)], Claim(v, PhaseOf(s, w).job.id, lease));
  }
}
