/**
 Where the records come from, over every run: who wrote each, from what, and on whose word it is
 confirmed.
 */
module MemoryOrigins {
  import opened Wrappers
  import opened MemoryStore

  /** The event stored the record: its owner's words as the agent wrote them, or a summary of a record of the same owner. */
  predicate WrittenBy(e: Event, id: Id, r: Record) {
    match e
    case Remember(org, owner, x, content, secret, _) =>
      x == id && !secret && r.org == org && r.owner == owner && r.content == content && r.channel == ByAgent && r.derivedFrom.None?
    case Summarise(org, owner, source, x, _) =>
      x == id && r.org == org && r.owner == owner && r.channel == ByRuntime && r.derivedFrom == Some(source)
    case _ => false
  }

  /** What no event changes about a record. */
  predicate SameOrigin(r: Record, q: Record) {
    && (r.org, r.owner, r.content, r.hash) == (q.org, q.owner, q.content, q.hash)
    && r.channel == q.channel && r.derivedFrom == q.derivedFrom
  }

  /** The event makes a record confirmed that was not. */
  predicate Confirms(s: Store, e: Event, id: Id) {
    match e
    case Confirm(org, owner, x, _) => x == id && Visible(s, org, owner, id) && s.records[id].status == Unconfirmed
    case Remember(_, _, x, _, _, _) => x == id && s.autoConfirm
    case Summarise(org, owner, source, x, _) => x == id && Visible(s, org, owner, source) && s.records[source].status == Confirmed
    case _ => false
  }

  lemma WriteRecords(cfg: Config, s: Store, id: Id, r: Record, fault: Fault)
    ensures Write(cfg, s, id, r, fault).records == s.records[id := r]
  {
    UpsertAt(cfg, Commit(s, id, r), id, r, fault, SHARED, id);
  }

  lemma ForgetRecords(cfg: Config, s: Store, org: Org, owner: Sub, root: Id, fault: Fault, id: Id)
    ensures var t := DoForget(cfg, s, org, owner, root, fault).records;
      t.Keys == s.records.Keys && (id in t ==> t[id] == s.records[id].(deleted := t[id].deleted))
  {
    if Visible(s, org, owner, root) && s.scopeAll {
      var gone := Tree(s.records, VisibleIds(s, org, owner), root);
      DeleteAt(cfg, Bury(s, gone), org, gone, fault, SHARED, id);
    }
  }

  /** What one event does to one record. */
  lemma StepRecord(cfg: Config, s: Store, e: Event, id: Id)
    ensures var t := Next(cfg, s, e).records;
      && (id in s.records ==> id in t && SameOrigin(s.records[id], t[id]))
      && (id in s.records && s.records[id].status == Unconfirmed && t[id].status == Confirmed ==> e.Confirm? && Confirms(s, e, id))
      && (id !in s.records && id in t ==> WrittenBy(e, id, t[id]) && (t[id].status == Confirmed <==> Confirms(s, e, id)))
  {
    match e {
      case Remember(org, owner, x, content, secret, fault) =>
        if x !in s.records && !secret {
          WriteRecords(cfg, s, x, NewMemory(cfg, s, org, owner, content), fault);
        }
      case Confirm(org, owner, x, fault) =>
        if Visible(s, org, owner, x) && s.records[x].status == Unconfirmed {
          WriteRecords(cfg, s, x, s.records[x].(status := Confirmed, auto := false), fault);
        }
      case Summarise(org, owner, source, x, fault) =>
        if x !in s.records && Visible(s, org, owner, source) {
          WriteRecords(cfg, s, x, NewSummary(cfg, s, org, owner, source), fault);
        }
      case Forget(org, owner, x, fault) =>
        ForgetRecords(cfg, s, org, owner, x, fault, id);
      case _ =>
    }
  }

  lemma {:induction false} LastStep(cfg: Config, s: Store, events: seq<Event>, e: Event)
    ensures After(cfg, s, events + [e]) == Next(cfg, After(cfg, s, events), e)
    decreases |events|
  {
    if events == [] {
      assert [e][1..] == [];
    } else {
      assert (events + [e])[1..] == events[1..] + [e];
      LastStep(cfg, Next(cfg, s, events[0]), events[1..], e);
    }
  }

  lemma Split(cfg: Config, s: Store, events: seq<Event>) returns (before: seq<Event>, e: Event)
    requires events != []
    ensures before == events[..|events| - 1] && e == events[|events| - 1]
    ensures After(cfg, s, events) == Next(cfg, After(cfg, s, before), e)
  {
    before, e := events[..|events| - 1], events[|events| - 1];
    assert events == before + [e];
    LastStep(cfg, s, before, e);
  }

  /** In every run each record that was not there from the start was written by one request of its owner, once and for all. */
  lemma {:induction false} EveryRecordWasWritten(cfg: Config, seeds: map<Id, Record>, events: seq<Event>, id: Id) returns (k: nat)
    requires id in After(cfg, Start(cfg, seeds), events).records && id !in seeds
    ensures k < |events| && WrittenBy(events[k], id, After(cfg, Start(cfg, seeds), events).records[id])
    ensures id !in After(cfg, Start(cfg, seeds), events[..k]).records
    decreases |events|
  {
    if events == [] {
      assert false;
    } else {
      var before, e := Split(cfg, Start(cfg, seeds), events);
      var s := After(cfg, Start(cfg, seeds), before);
      StepRecord(cfg, s, e, id);
      if id in s.records {
        k := EveryRecordWasWritten(cfg, seeds, before, id);
        assert before[..k] == events[..k];
      } else {
        k := |before|;
      }
    }
  }

  lemma {:induction false} AncestorStays(records: map<Id, Record>, later: map<Id, Record>, id: Id, depth: nat)
    requires forall x :: x in records ==> x in later && later[x].derivedFrom == records[x].derivedFrom
    requires Ancestor(records, id, depth).Some?
    ensures Ancestor(later, id, depth) == Ancestor(records, id, depth)
    decreases depth
  {
    if depth > 0 {
      AncestorStays(records, later, records[id].derivedFrom.value, depth - 1);
    }
  }

  /** On whose word the root is confirmed: it came so with the seed, its owner confirmed it, or the deployment did by itself. */
  ghost predicate Vouched(cfg: Config, seeds: map<Id, Record>, events: seq<Event>, root: Id, org: Org, owner: Sub, k: nat) {
    || (root in seeds && seeds[root].status == Confirmed)
    || (k < |events| && events[k].Confirm? && events[k].org == org && events[k].owner == owner && events[k].id == root)
    || (k < |events| && events[k].Remember? && events[k].org == org && events[k].owner == owner && events[k].id == root
        && After(cfg, Start(cfg, seeds), events[..k]).autoConfirm)
  }

  /** The record goes back to the root, within one owner, and the root is vouched for. */
  ghost predicate GoesBackTo(cfg: Config, seeds: map<Id, Record>, events: seq<Event>, id: Id, root: Id, depth: nat, k: nat) {
    var records := After(cfg, Start(cfg, seeds), events).records;
    && id in records && Ancestor(records, id, depth) == Some(root) && root in records
    && records[root].org == records[id].org && records[root].owner == records[id].owner
    && Vouched(cfg, seeds, events, root, records[id].org, records[id].owner, k)
  }

  lemma GoesBackStill(cfg: Config, seeds: map<Id, Record>, events: seq<Event>, e: Event, id: Id, root: Id, depth: nat, k: nat)
    requires GoesBackTo(cfg, seeds, events, id, root, depth, k)
    ensures GoesBackTo(cfg, seeds, events + [e], id, root, depth, k)
  {
    var s := After(cfg, Start(cfg, seeds), events);
    LastStep(cfg, Start(cfg, seeds), events, e);
    forall x | x in s.records ensures x in Next(cfg, s, e).records && SameOrigin(s.records[x], Next(cfg, s, e).records[x]) {
      StepRecord(cfg, s, e, x);
    }
    AncestorStays(s.records, Next(cfg, s, e).records, id, depth);
    if k < |events| {
      assert (events + [e])[..k] == events[..k];
    }
  }

  /** A record that has just become confirmed is its own root, or a summary of one that was. */
  lemma NewlyConfirmed(cfg: Config, seeds: map<Id, Record>, events: seq<Event>, e: Event, id: Id)
    requires var s, t := After(cfg, Start(cfg, seeds), events), After(cfg, Start(cfg, seeds), events + [e]);
      && id in t.records && t.records[id].status == Confirmed && (id !in s.records || s.records[id].status == Unconfirmed)
    ensures var s, t := After(cfg, Start(cfg, seeds), events), After(cfg, Start(cfg, seeds), events + [e]);
      if e.Summarise? then
        && e.source in s.records && s.records[e.source].status == Confirmed && e.source in t.records
        && t.records[id].derivedFrom == Some(e.source)
        && t.records[id].org == t.records[e.source].org && t.records[id].owner == t.records[e.source].owner
      else GoesBackTo(cfg, seeds, events + [e], id, id, 0, |events|)
  {
    var s := After(cfg, Start(cfg, seeds), events);
    LastStep(cfg, Start(cfg, seeds), events, e);
    StepRecord(cfg, s, e, id);
    if e.Summarise? {
      StepRecord(cfg, s, e, e.source);
    }
    assert (events + [e])[..|events|] == events;
  }

  /**
   Nothing is confirmed by nobody: in every run a confirmed record goes back, summary by summary and
   within one owner, to a record that was seeded so, that this owner confirmed, or that this owner
   wrote while the deployment confirmed by itself.
   */
  lemma {:induction false} ConfirmedIsVouchedFor(cfg: Config, seeds: map<Id, Record>, events: seq<Event>, id: Id)
    returns (root: Id, depth: nat, k: nat)
    requires var s := After(cfg, Start(cfg, seeds), events); id in s.records && s.records[id].status == Confirmed
    ensures GoesBackTo(cfg, seeds, events, id, root, depth, k)
    decreases |events|
  {
    root, depth, k := id, 0, 0;
    if events != [] {
      var before, e := events[..|events| - 1], events[|events| - 1];
      var s := After(cfg, Start(cfg, seeds), before);
      assert events == before + [e];
      if id in s.records && s.records[id].status == Confirmed {
        root, depth, k := ConfirmedIsVouchedFor(cfg, seeds, before, id);
        GoesBackStill(cfg, seeds, before, e, id, root, depth, k);
      } else {
        NewlyConfirmed(cfg, seeds, before, e, id);
        k := |before|;
        if e.Summarise? {
          root, depth, k := ConfirmedIsVouchedFor(cfg, seeds, before, e.source);
          GoesBackStill(cfg, seeds, before, e, e.source, root, depth, k);
          depth := depth + 1;
        }
      }
    }
  }

  // ---------------------------------------------------------------------------------------------
  // Withdrawing automatic confirmation
  // ---------------------------------------------------------------------------------------------

  ghost predicate OwnerConfirms(cfg: Config, seeds: map<Id, Record>, events: seq<Event>, k: int, id: Id) {
    0 <= k < |events| && events[k].Confirm? && Confirms(After(cfg, Start(cfg, seeds), events[..k]), events[k], id)
  }

  /** The owner confirmed the record at some step, or it was seeded as confirmed so. */
  ghost predicate OnItsOwnersWord(cfg: Config, seeds: map<Id, Record>, events: seq<Event>, id: Id) {
    (id in seeds && seeds[id].status == Confirmed && !seeds[id].auto) || exists k :: OwnerConfirms(cfg, seeds, events, k, id)
  }

  lemma OneMoreStep(cfg: Config, seeds: map<Id, Record>, events: seq<Event>, e: Event, id: Id)
    ensures OnItsOwnersWord(cfg, seeds, events + [e], id)
            <==> || OnItsOwnersWord(cfg, seeds, events, id)
                 || (e.Confirm? && Confirms(After(cfg, Start(cfg, seeds), events), e, id))
  {
    assert (events + [e])[..|events|] == events;
    forall k | 0 <= k < |events| ensures OwnerConfirms(cfg, seeds, events, k, id) <==> OwnerConfirms(cfg, seeds, events + [e], k, id) {
      assert (events + [e])[..k] == events[..k];
    }
    if e.Confirm? && Confirms(After(cfg, Start(cfg, seeds), events), e, id) {
      assert OwnerConfirms(cfg, seeds, events + [e], |events|, id);
    }
  }

  /** What is not automatic about a record's confirmation is its owner's own. */
  ghost predicate Own(s: Store, id: Id) {
    id in s.records && s.records[id].status == Confirmed && !s.records[id].auto
  }

  /** How one event changes that. */
  lemma StepOwn(cfg: Config, s: Store, e: Event, id: Id)
    ensures id in s.records ==> (Own(Next(cfg, s, e), id) <==> Own(s, id) || (e.Confirm? && Confirms(s, e, id)))
    ensures id !in s.records && Own(Next(cfg, s, e), id) ==> Next(cfg, s, e).records[id].derivedFrom.Some?
  {
    match e {
      case Remember(org, owner, x, content, secret, fault) =>
        if x !in s.records && !secret {
          WriteRecords(cfg, s, x, NewMemory(cfg, s, org, owner, content), fault);
        }
      case Confirm(org, owner, x, fault) =>
        if Visible(s, org, owner, x) && s.records[x].status == Unconfirmed {
          WriteRecords(cfg, s, x, s.records[x].(status := Confirmed, auto := false), fault);
        }
      case Summarise(org, owner, source, x, fault) =>
        if x !in s.records && Visible(s, org, owner, source) {
          WriteRecords(cfg, s, x, NewSummary(cfg, s, org, owner, source), fault);
        }
      case Forget(org, owner, x, fault) =>
        ForgetRecords(cfg, s, org, owner, x, fault, id);
      case _ =>
    }
  }

  lemma {:induction false} OwnMeansOwnersWord(cfg: Config, seeds: map<Id, Record>, events: seq<Event>, id: Id)
    ensures var s := After(cfg, Start(cfg, seeds), events);
      && (OnItsOwnersWord(cfg, seeds, events, id) ==> id in s.records)
      && (id in s.records && s.records[id].derivedFrom.None? ==> (Own(s, id) <==> OnItsOwnersWord(cfg, seeds, events, id)))
    decreases |events|
  {
    if events != [] {
      var before, e := Split(cfg, Start(cfg, seeds), events);
      var s := After(cfg, Start(cfg, seeds), before);
      OwnMeansOwnersWord(cfg, seeds, before, id);
      assert events == before + [e];
      OneMoreStep(cfg, seeds, before, e, id);
      StepRecord(cfg, s, e, id);
      StepOwn(cfg, s, e, id);
    }
  }

  /**
   After withdrawing automatic confirmation, in every run, a live memory that is no summary is confirmed
   exactly on its owner's own word; but no summary's status is touched, whatever it was made from.
   */
  lemma RevocationReachesOriginals(cfg: Config, seeds: map<Id, Record>, events: seq<Event>, id: Id)
    requires SeedsOk(cfg, seeds) && Live(After(cfg, Start(cfg, seeds), events), id)
    ensures var s := After(cfg, Start(cfg, seeds), events);
      var t := After(cfg, Start(cfg, seeds), events + [RevokeAuto]);
      && id in t.records
      && (s.records[id].derivedFrom.None? ==>
            (t.records[id].status == Confirmed <==> OnItsOwnersWord(cfg, seeds, events, id)))
      && (s.records[id].derivedFrom.Some? ==> t.records[id].status == s.records[id].status)
  {
    LastStep(cfg, Start(cfg, seeds), events, RevokeAuto);
    OwnMeansOwnersWord(cfg, seeds, events, id);
    SummariesAreNotAutomatic(cfg, seeds, events, id);
  }

  lemma {:induction false} SummariesAreNotAutomatic(cfg: Config, seeds: map<Id, Record>, events: seq<Event>, id: Id)
    requires SeedsOk(cfg, seeds)
    ensures var s := After(cfg, Start(cfg, seeds), events);
      id in s.records && s.records[id].derivedFrom.Some? ==> !s.records[id].auto
    decreases |events|
  {
    if events != [] {
      var before, e := Split(cfg, Start(cfg, seeds), events);
      SummariesAreNotAutomatic(cfg, seeds, before, id);
      StepSummary(cfg, After(cfg, Start(cfg, seeds), before), e, id);
    }
  }

  lemma StepSummary(cfg: Config, s: Store, e: Event, id: Id)
    requires id in s.records && s.records[id].derivedFrom.Some? ==> !s.records[id].auto
    ensures var t := Next(cfg, s, e); id in t.records && t.records[id].derivedFrom.Some? ==> !t.records[id].auto
  {
    match e {
      case Remember(org, owner, x, content, secret, fault) =>
        if x !in s.records && !secret {
          WriteRecords(cfg, s, x, NewMemory(cfg, s, org, owner, content), fault);
        }
      case Confirm(org, owner, x, fault) =>
        if Visible(s, org, owner, x) && s.records[x].status == Unconfirmed {
          WriteRecords(cfg, s, x, s.records[x].(status := Confirmed, auto := false), fault);
        }
      case Summarise(org, owner, source, x, fault) =>
        if x !in s.records && Visible(s, org, owner, source) {
          WriteRecords(cfg, s, x, NewSummary(cfg, s, org, owner, source), fault);
        }
      case Forget(org, owner, x, fault) =>
        ForgetRecords(cfg, s, org, owner, x, fault, id);
      case _ =>
    }
  }

  /**
   A run from the empty store in which nobody confirms anything, and after which, automatic confirmation
   off and withdrawn, the summary of a memory that has gone back to unconfirmed is still confirmed.
   */
  lemma RevocationMissesSummaries(cfg: Config, org: Org, owner: Sub, content: string)
    ensures var events := [SetAutoConfirm(true), Remember(org, owner, 0, content, false, NoFault), Summarise(org, owner, 0, 1, NoFault),
                           SetAutoConfirm(false), RevokeAuto];
      var s := After(cfg, Start(cfg, map[]), events);
      && !s.autoConfirm
      && Visible(s, org, owner, 0) && s.records[0].status == Unconfirmed && s.records[0].content == content
      && Visible(s, org, owner, 1) && s.records[1].status == Confirmed && s.records[1].derivedFrom == Some(0)
  {
    var s0 := Start(cfg, map[]);
    var s1 := Next(cfg, s0, SetAutoConfirm(true));
    var r := NewMemory(cfg, s1, org, owner, content);
    WriteRecords(cfg, s1, 0, r, NoFault);
    var s2 := Next(cfg, s1, Remember(org, owner, 0, content, false, NoFault));
    var q := NewSummary(cfg, s2, org, owner, 0);
    WriteRecords(cfg, s2, 1, q, NoFault);
    var s3 := Next(cfg, s2, Summarise(org, owner, 0, 1, NoFault));
    FiveSteps(cfg, s0, SetAutoConfirm(true), Remember(org, owner, 0, content, false, NoFault), Summarise(org, owner, 0, 1, NoFault),
              SetAutoConfirm(false), RevokeAuto);
  }

  lemma FiveSteps(cfg: Config, s: Store, a: Event, b: Event, c: Event, d: Event, e: Event)
    ensures After(cfg, s, [a, b, c, d, e]) == Next(cfg, Next(cfg, Next(cfg, Next(cfg, Next(cfg, s, a), b), c), d), e)
  {
    LastStep(cfg, s, [a, b, c, d], e);
    LastStep(cfg, s, [a, b, c], d);
    LastStep(cfg, s, [a, b], c);
    LastStep(cfg, s, [a], b);
    LastStep(cfg, s, [], a);
    assert [a, b, c, d, e] == [a, b, c, d] + [e] && [a, b, c, d] == [a, b, c] + [d] && [a, b, c] == [a, b] + [c];
    assert [a, b] == [a] + [b] && [a] == [] + [a];
  }

  /** Withdrawing automatic confirmation takes it from exactly the live records that had nothing else. */
  lemma RevokedExactly(cfg: Config, s: Store, id: Id)
    requires id in s.records
    ensures var t := Next(cfg, s, RevokeAuto).records;
      && t.Keys == s.records.Keys && SameOrigin(t[id], s.records[id]) && t[id].deleted == s.records[id].deleted
      && (t[id].status == Confirmed <==> s.records[id].status == Confirmed && !(s.records[id].auto && !s.records[id].deleted))
  {
  }

  /** A summary goes with what it sums up: forgetting the source forgets it too. */
  lemma SummaryGoesWithItsSource(cfg: Config, s: Store, org: Org, owner: Sub, source: Id, id: Id, first: Fault, second: Fault)
    requires id !in s.records && Visible(s, org, owner, source) && s.scopeAll
    ensures var t := Next(cfg, Next(cfg, s, Summarise(org, owner, source, id, first)), Forget(org, owner, source, second));
      source in t.records && id in t.records && t.records[source].deleted && t.records[id].deleted
  {
    var r := NewSummary(cfg, s, org, owner, source);
    WriteRecords(cfg, s, id, r, first);
    UpsertAt(cfg, Commit(s, id, r), id, r, first, SHARED, id);
    var u := Next(cfg, s, Summarise(org, owner, source, id, first));
    var seen := VisibleIds(u, org, owner);
    assert Hangs(u.records, seen, source, source, 0);
    assert Hangs(u.records, seen, source, id, 1);
    var gone := Tree(u.records, seen, source);
    DeleteAt(cfg, Bury(u, gone), org, gone, second, SHARED, id);
  }

  /** What a summary is: the source's own words, all of a short text or the first 157 characters of a long one, in its status. */
  lemma SummaryExactly(cfg: Config, s: Store, org: Org, owner: Sub, source: Id, id: Id, fault: Fault)
    requires id !in s.records && Visible(s, org, owner, source)
    ensures var t := Next(cfg, s, Summarise(org, owner, source, id, fault)).records;
      var text := s.records[source].content;
      && id in t && t == s.records[id := t[id]] && WrittenBy(Summarise(org, owner, source, id, fault), id, t[id])
      && t[id].content == "Summary of an earlier memory: " + (if |text| > 160 then text[..157] + "..." else text)
      && t[id].status == s.records[source].status && !t[id].auto && !t[id].deleted
  {
    WriteRecords(cfg, s, id, NewSummary(cfg, s, org, owner, source), fault);
  }
}
