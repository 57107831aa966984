/**
 The reset sweep over every registered mutation.

 Probes and restores are foreign code, so a sweep is told what each probe answered and whether each
 restore raised; nothing is assumed of either. Beside it stands the family of controls that share
 one bundle file and one container, where the answers do follow from the restores.
 */
module Reset {
  import opened Wrappers
  import opened Strings
  import opened PolicyBundle

  type MutationId = string

  datatype Event = Event(changed: seq<MutationId>, succeeded: bool, stillArmed: seq<MutationId>)

  predicate Fine(a: Answer) {
    a == Correct || a == Absent
  }

  /** What was first probed wrong, in registration order. */
  function Wrong<T>(ids: seq<T>, first: seq<Answer>): seq<T>
    requires |ids| == |first|
  {
    if |ids| == 0 then []
    else Wrong(ids[..|ids| - 1], first[..|ids| - 1]) + if Fine(first[|ids| - 1]) then [] else [ids[|ids| - 1]]
  }

  predicate Distinct<T(==)>(ids: seq<T>) {
    forall i, j :: 0 <= i < j < |ids| ==> ids[i] != ids[j]
  }

  lemma {:induction false} WrongMembers<T>(ids: seq<T>, first: seq<Answer>, i: nat)
    requires |ids| == |first| && Distinct(ids) && i < |ids|
    ensures ids[i] in Wrong(ids, first) <==> !Fine(first[i])
    decreases |ids|
  {
    var n := |ids| - 1;
    WrongComeFrom(ids[..n], first[..n]);
    if i < n {
      WrongMembers(ids[..n], first[..n], i);
    } else {
      assert ids[n] !in ids[..n];
    }
  }

  lemma {:induction false} WrongComeFrom<T>(ids: seq<T>, first: seq<Answer>)
    requires |ids| == |first|
    ensures forall id :: id in Wrong(ids, first) ==> id in ids
    ensures InOrder(ids, Wrong(ids, first))
  {
    if |ids| > 0 {
      var n := |ids| - 1;
      WrongComeFrom(ids[..n], first[..n]);
      assert ids == ids[..n] + [ids[n]];
      var w := Wrong(ids[..n], first[..n]);
      assert w + [] == w;
      InOrderGrows(ids[..n], w, ids[n]);
    }
  }

  lemma {:induction false} WrongAreDistinct<T>(ids: seq<T>, first: seq<Answer>)
    requires |ids| == |first| && Distinct(ids)
    ensures Distinct(Wrong(ids, first))
  {
    if |ids| > 0 {
      var n := |ids| - 1;
      WrongAreDistinct(ids[..n], first[..n]);
      WrongComeFrom(ids[..n], first[..n]);
      assert ids[n] !in ids[..n];
    }
  }

  /** Exactly the mutations first probed wrong are in the list, each once, in registration order. */
  lemma WrongIsExact<T>(ids: seq<T>, first: seq<Answer>)
    requires |ids| == |first| && Distinct(ids)
    ensures forall i :: 0 <= i < |ids| ==> (ids[i] in Wrong(ids, first) <==> !Fine(first[i]))
    ensures forall id :: id in Wrong(ids, first) ==> id in ids
    ensures Distinct(Wrong(ids, first))
    ensures InOrder(ids, Wrong(ids, first))
  {
    forall i | 0 <= i < |ids| { WrongMembers(ids, first, i); }
    WrongComeFrom(ids, first);
    WrongAreDistinct(ids, first);
  }

  /** A subsequence: what is left of `ids` after crossing some of them out. */
  ghost predicate InOrder<T>(ids: seq<T>, some: seq<T>) {
    if |some| == 0 then true
    else if |ids| == 0 then false
    else (ids[|ids| - 1] == some[|some| - 1] && InOrder(ids[..|ids| - 1], some[..|some| - 1])) || InOrder(ids[..|ids| - 1], some)
  }

  lemma InOrderGrows<T>(ids: seq<T>, some: seq<T>, id: T)
    requires InOrder(ids, some)
    ensures InOrder(ids + [id], some) && InOrder(ids + [id], some + [id])
  {
    assert (ids + [id])[..|ids|] == ids && (some + [id])[..|some|] == some;
  }

  /** What a sweep is told by the world outside. */
  datatype Told = Told(first: seq<Answer>, raises: seq<bool>, after: seq<Answer>)

  ghost predicate Tells(told: Told, ids: seq<MutationId>) {
    |told.first| == |told.raises| == |told.after| == |ids|
  }

  /** The ids a sweep must report as not restored. */
  function Failing(ids: seq<MutationId>, told: Told): set<MutationId>
    requires |told.first| == |told.raises| == |told.after| == |ids|
  {
    set i | 0 <= i < |ids| && (!Fine(told.after[i]) || (!Fine(told.first[i]) && told.raises[i])) :: ids[i]
  }

  class Range {
    const ids: seq<MutationId>
    var restored: seq<MutationId>
    var events: seq<Event>

    constructor (ids: seq<MutationId>)
      ensures this.ids == ids && restored == [] && events == []
    {
      this.ids := ids;
      restored, events := [], [];
    }

    /** Probe everything before restoring anything: one restore may correct several controls. */
    method ProbeAll(first: seq<Answer>) returns (wrong: set<MutationId>)
      requires |first| == |ids| && Distinct(ids)
      ensures forall i :: 0 <= i < |ids| ==> (ids[i] in wrong <==> !Fine(first[i]))
    {
      wrong := {};
      for i := 0 to |ids|
        invariant forall j :: 0 <= j < i ==> (ids[j] in wrong <==> !Fine(first[j]))
        invariant forall id :: id in wrong ==> id in ids[..i]
      {
        if !Fine(first[i]) {
          wrong := wrong + {ids[i]};
        }
      }
    }

    /** No restore ends the sweep, raised or not. */
    method RestoreAll(wrong: set<MutationId>, told: Told) returns (changed: seq<MutationId>, failed: set<MutationId>)
      requires Tells(told, ids) && Distinct(ids)
      requires forall i :: 0 <= i < |ids| ==> (ids[i] in wrong <==> !Fine(told.first[i]))
      modifies this`restored
      ensures changed == Wrong(ids, told.first)
      ensures restored == old(restored) + changed
      ensures failed == set i | 0 <= i < |ids| && !Fine(told.first[i]) && told.raises[i] :: ids[i]
    {
      changed, failed := [], {};
      for i := 0 to |ids|
        invariant changed == Wrong(ids[..i], told.first[..i])
        invariant restored == old(restored) + changed
        invariant failed == set j | 0 <= j < i && !Fine(told.first[j]) && told.raises[j] :: ids[j]
      {
        assert ids[..i + 1][..i] == ids[..i] && told.first[..i + 1][..i] == told.first[..i];
        if ids[i] in wrong {
          changed := changed + [ids[i]];
          restored := restored + [ids[i]];
          if told.raises[i] {
            failed := failed + {ids[i]};
          }
        }
      }
      assert ids[..|ids|] == ids && told.first[..|ids|] == told.first;
    }

    /**
     `reset`: an error names what is still wrong or could not be restored. A normal return means the
     second probe of every mutation was fine and no restore raised.
     */
    method Sweep(told: Told) returns (r: Result<seq<MutationId>, seq<MutationId>>)
      requires Tells(told, ids) && Distinct(ids)
      modifies this`restored, this`events
      ensures restored == old(restored) + Wrong(ids, told.first)
      ensures r == if Failing(ids, told) == {} then Ok(Wrong(ids, told.first)) else Err(Sorted(Failing(ids, told)))
      ensures events == old(events) + [Event(Wrong(ids, told.first), r.Ok?, Sorted(Failing(ids, told)))]
    {
      var wrong := ProbeAll(told.first);
      var changed, failed := RestoreAll(wrong, told);
      var still := (set i | 0 <= i < |ids| && !Fine(told.after[i]) :: ids[i]) + failed;
      assert still == Failing(ids, told);
      events := events + [Event(changed, still == {}, Sorted(still))];
      r := if still == {} then Ok(changed) else Err(Sorted(still));
    }
  }

  /** A normal return: everything is fine now, and the answer lists what was first found wrong. */
  lemma NormalReturnMeansFine(ids: seq<MutationId>, told: Told)
    requires Tells(told, ids) && Distinct(ids)
    ensures Failing(ids, told) == {} <==>
              forall i :: 0 <= i < |ids| ==> Fine(told.after[i]) && (Fine(told.first[i]) || !told.raises[i])
    ensures forall i :: 0 <= i < |ids| ==> (ids[i] in Wrong(ids, told.first) <==> !Fine(told.first[i]))
  {
    WrongIsExact(ids, told.first);
    if Failing(ids, told) == {} {
      forall i | 0 <= i < |ids| ensures Fine(told.after[i]) && (Fine(told.first[i]) || !told.raises[i]) {
        assert ids[i] !in Failing(ids, told);
      }
    }
  }

  // ---------------------------------------------------------------------------------------------
  // The controls that share one bundle and one container
  // ---------------------------------------------------------------------------------------------

  datatype Control = OpaStop | Bundle(variant: Variant)

  /** In registration order. */
  const FAMILY: seq<Control> :=
    [OpaStop, Bundle(Tenant), Bundle(Role), Bundle(Conflict), Bundle(Undefined), Bundle(Scope)]

  const FAMILY_IDS: seq<MutationId> :=
    ["policy.opa.stop", "policy.tenant_check.remove", "policy.role_check.remove", "policy.bundle.conflict",
     "policy.bundle.undefined", "policy.scope_check.remove"]

  function ProbeControl(w: World, source: Option<string>, c: Control, reachable: bool): Answer {
    match c
    case OpaStop => if !reachable then Unknown else if w.running then Correct else Armed
    case Bundle(v) => Probe(w, source, v, reachable)
  }

  /** The stopped container is told from the running one, and neither is guessed at. */
  lemma StoppedIsProbedExactly(w: World, source: Option<string>, reachable: bool)
    ensures ProbeControl(w, source, OpaStop, reachable) == Unknown <==> !reachable
    ensures ProbeControl(w, source, OpaStop, reachable) == Correct <==> reachable && w.running
    ensures ProbeControl(w, source, OpaStop, reachable) == Armed <==> reachable && !w.running
  {
  }

  /** A restore that does not fail: start the container, or put the policy back and restart it. */
  function RestoreControl(w: World, source: string, c: Control, dt: nat): World
    requires dt > 0
  {
    match c
    case OpaStop => Take(w, Start, dt)
    case Bundle(_) => Installed(w, source, dt)
  }

  function RestoreEach(w: World, source: string, wrong: seq<Control>, dt: nat): World
    requires dt > 0
  {
    if |wrong| == 0 then w else RestoreControl(RestoreEach(w, source, wrong[..|wrong| - 1], dt), source, wrong[|wrong| - 1], dt)
  }

  function Probes(w: World, source: Option<string>, reachable: bool): (r: seq<Answer>)
    ensures |r| == |FAMILY|
  {
    seq(|FAMILY|, i requires 0 <= i < |FAMILY| => ProbeControl(w, source, FAMILY[i], reachable))
  }

  /** The policy is in the file, and no write came after the last start. */
  predicate InPlace(w: World, source: string) {
    Honest(w) && w.deployed == Some(source) && w.started >= w.written
  }

  lemma RestoreKeepsHonest(w: World, source: string, c: Control, dt: nat)
    requires Honest(w) && dt > 0
    ensures Honest(RestoreControl(w, source, c, dt)) && RestoreControl(w, source, c, dt).running
    ensures c.Bundle? || InPlace(w, source) ==> InPlace(RestoreControl(w, source, c, dt), source)
  {
  }

  lemma {:induction false} RestoresPutInPlace(w: World, source: string, wrong: seq<Control>, dt: nat)
    requires Honest(w) && dt > 0
    ensures Honest(RestoreEach(w, source, wrong, dt))
    ensures |wrong| > 0 ==> RestoreEach(w, source, wrong, dt).running
    ensures InPlace(w, source) || (exists c :: c in wrong && c.Bundle?) ==> InPlace(RestoreEach(w, source, wrong, dt), source)
  {
    if |wrong| > 0 {
      var front, last := wrong[..|wrong| - 1], wrong[|wrong| - 1];
      assert wrong == front + [last];
      RestoresPutInPlace(w, source, front, dt);
      RestoreKeepsHonest(RestoreEach(w, source, front, dt), source, last, dt);
    }
  }

  lemma FamilyIsDistinct()
    ensures Distinct(FAMILY) && Distinct(FAMILY_IDS) && |FAMILY| == |FAMILY_IDS| == 6
  {
    assert FAMILY[0] == OpaStop && FAMILY[1] == Bundle(Tenant) && FAMILY[2] == Bundle(Role);
    assert FAMILY[3] == Bundle(Conflict) && FAMILY[4] == Bundle(Undefined) && FAMILY[5] == Bundle(Scope);
    assert |FAMILY_IDS[0]| == 15 && |FAMILY_IDS[1]| == 26 && |FAMILY_IDS[2]| == 24;
    assert |FAMILY_IDS[3]| == 22 && |FAMILY_IDS[4]| == 23 && |FAMILY_IDS[5]| == 25;
  }

  /** The world once the controls first probed wrong have been restored, none failing. */
  function AfterRestores(w: World, source: string, dt: nat): World
    requires dt > 0
  {
    RestoreEach(w, source, Wrong(FAMILY, Probes(w, Some(source), true)), dt)
  }

  lemma FamilyInPlace(w: World, source: string, dt: nat)
    requires Honest(w) && dt > 0
    ensures InPlace(AfterRestores(w, source, dt), source)
  {
    var first := Probes(w, Some(source), true);
    FamilyIsDistinct();
    WrongIsExact(FAMILY, first);
    RestoresPutInPlace(w, source, Wrong(FAMILY, first), dt);
    assert FAMILY[1] == Bundle(Tenant);
    if Fine(first[1]) {
      assert Probe(w, Some(source), Tenant, true) == Correct;
    } else {
      assert Bundle(Tenant) in Wrong(FAMILY, first);
    }
  }

  lemma FamilyRuns(w: World, source: string, dt: nat)
    requires dt > 0
    ensures AfterRestores(w, source, dt).running
  {
    var first := Probes(w, Some(source), true);
    FamilyIsDistinct();
    WrongIsExact(FAMILY, first);
    assert FAMILY[0] == OpaStop;
    assert w.running || OpaStop in Wrong(FAMILY, first);
    RunningStays(w, source, Wrong(FAMILY, first), dt);
  }

  lemma InPlaceProbesCorrect(w: World, source: string, c: Control)
    requires InPlace(w, source) && w.running
    ensures ProbeControl(w, Some(source), c, true) == Correct
  {
  }

  /**
   Restoring the controls first probed wrong, none failing, leaves the whole family correct, whatever
   was armed, stopped, half restored or rewritten before: each restore overwrites what the last wrote.
   */
  lemma FamilyEndsCorrect(w: World, source: string, dt: nat, i: nat)
    requires Honest(w) && dt > 0 && i < |FAMILY|
    ensures Probes(AfterRestores(w, source, dt), Some(source), true)[i] == Correct
  {
    FamilyInPlace(w, source, dt);
    FamilyRuns(w, source, dt);
    InPlaceProbesCorrect(AfterRestores(w, source, dt), source, FAMILY[i]);
  }

  lemma {:induction false} RunningStays(w: World, source: string, wrong: seq<Control>, dt: nat)
    requires dt > 0 && (w.running || |wrong| > 0)
    ensures RestoreEach(w, source, wrong, dt).running
  {
    if |wrong| > 1 {
      RunningStays(w, source, wrong[..|wrong| - 1], dt);
    }
  }

  /** What the world tells a sweep of the family when no restore raises. */
  function FamilyTold(w: World, source: string, dt: nat): Told
    requires dt > 0
  {
    Told(Probes(w, Some(source), true), seq(|FAMILY|, _ => false), Probes(AfterRestores(w, source, dt), Some(source), true))
  }

  /** So a sweep of the family has nothing to report as failed. */
  lemma FamilySweepFailsNothing(w: World, source: string, dt: nat)
    requires Honest(w) && dt > 0
    ensures Tells(FamilyTold(w, source, dt), FAMILY_IDS) && Failing(FAMILY_IDS, FamilyTold(w, source, dt)) == {}
  {
    FamilyIsDistinct();
    forall i | 0 <= i < |FAMILY| { FamilyEndsCorrect(w, source, dt, i); }
  }

  /**
   The sweep of the family: it answers normally with exactly the ids first probed wrong, restores each
   of them once, and every control then probes correct.
   */
  method SweepFamily(w: World, source: string, dt: nat) returns (r: Result<seq<MutationId>, seq<MutationId>>, after: World)
    requires Honest(w) && dt > 0
    ensures r == Ok(Wrong(FAMILY_IDS, Probes(w, Some(source), true)))
    ensures after == AfterRestores(w, source, dt)
    ensures forall i :: 0 <= i < |FAMILY| ==> Probes(after, Some(source), true)[i] == Correct
  {
    var range := new Range(FAMILY_IDS);
    FamilyIsDistinct();
    FamilySweepFailsNothing(w, source, dt);
    r := range.Sweep(FamilyTold(w, source, dt));
    after := AfterRestores(w, source, dt);
    forall i | 0 <= i < |FAMILY| { FamilyEndsCorrect(w, source, dt, i); }
  }
}
