/**
 Rules the agent follows: proposed by anyone, decided by somebody else, retired by an approver.

 Row-level security is the visibility predicate and the update policies, the trigger of migration
 0008 is `Refuses`, and a transaction or a savepoint is all or nothing.
 */
module Rules {
  import opened Wrappers

  type RuleId = string
  type Sub = string
  type Org = string

  datatype RuleState = Proposed | Active | Rejected | Retired

  datatype Rule = Rule(org: Org, text: string, hash: string, state: RuleState, proposedBy: Sub,
                       decidedBy: Option<Sub>, retiredBy: Option<Sub>)

  datatype Principal = Principal(org: Org, sub: Sub, roles: set<string>)

  datatype Audit = Audit(action: string, succeeded: bool, reason: string, rule: RuleId, who: Sub)

  datatype Reply = Answered(state: RuleState) | Forbidden | NotFound | Conflict

  /** What an approver said: kept only to state what an active rule stands on. */
  datatype Decision = Decision(rule: RuleId, who: Principal, approve: bool, hash: string)

  type Table = map<RuleId, Rule>

  predicate IsApprover(p: Principal) {
    "support_manager" in p.roles || "finance_approver" in p.roles
  }

  /** The read policy. */
  predicate Visible(p: Principal, r: Rule) {
    r.org == p.org && (r.state == Active || r.proposedBy == p.sub || IsApprover(p))
  }

  /** The trigger: what no update may do, whoever makes it and whichever policies it passed. */
  predicate Refuses(before: Rule, after: Rule) {
    || after.text != before.text || after.hash != before.hash || after.proposedBy != before.proposedBy || after.org != before.org
    || match before.state
       case Proposed =>
         || after.state !in {Active, Rejected}
         || after.decidedBy.None?
         || after.decidedBy == Some(before.proposedBy)
         || after.retiredBy.Some?
       case Active =>
         after.state != Retired || after.decidedBy != before.decidedBy || after.retiredBy.None?
       case _ => true
  }

  // ---------------------------------------------------------------------------------------------
  // Each call, as a function of the table
  // ---------------------------------------------------------------------------------------------

  datatype Call =
    | Propose(who: Principal, id: RuleId, text: string, selfActivate: bool)
    | Decide(who: Principal, id: RuleId, approve: bool, hash: string)
    | Retire(who: Principal, id: RuleId)

  datatype Effect = Effect(table: Table, row: Audit, reply: Reply)

  function DoPropose(h: string -> string, t: Table, who: Principal, id: RuleId, text: string, selfActivate: bool): Effect {
    var state := if selfActivate then Active else Proposed;
    Effect(t[id := Rule(who.org, text, h(text), state, who.sub, None, None)],
           Audit("rule.propose", true, if selfActivate then "activated_without_approval" else "awaiting_approval", id, who.sub),
           Answered(state))
  }

  function Decided(r: Rule, who: Principal, approve: bool): Rule {
    r.(state := if approve then Active else Rejected, decidedBy := Some(who.sub))
  }

  function DoDecide(t: Table, who: Principal, id: RuleId, approve: bool, hash: string): Effect {
    if !IsApprover(who) then
      Effect(t, Audit("rule.decide", false, "not_an_approver", id, who.sub), Forbidden)
    else if id !in t || !Visible(who, t[id]) || t[id].state != Proposed then
      Effect(t, Audit("rule.decide", false, "not_a_visible_proposal", id, who.sub), NotFound)
    else if t[id].hash != hash then
      Effect(t, Audit("rule.decide", false, "payload_hash_mismatch", id, who.sub), Conflict)
    else if Refuses(t[id], Decided(t[id], who, approve)) then
      Effect(t, Audit("rule.decide", false, "self_approval_refused_by_store", id, who.sub), Forbidden)
    else
      Effect(t[id := Decided(t[id], who, approve)],
             Audit("rule.decide", true, (if approve then "approve" else "reject") + "d_by_other_person", id, who.sub),
             Answered(if approve then Active else Rejected))
  }

  function Withdrawn(r: Rule, who: Sub): Rule {
    r.(state := Retired, retiredBy := Some(who))
  }

  function DoRetire(t: Table, who: Principal, id: RuleId): Effect {
    if !IsApprover(who) then
      Effect(t, Audit("rule.retire", false, "not_an_approver", id, who.sub), Forbidden)
    else if id !in t || t[id].org != who.org || t[id].state != Active then
      Effect(t, Audit("rule.retire", false, "not_a_visible_active_rule", id, who.sub), NotFound)
    else
      Effect(t[id := Withdrawn(t[id], who.sub)], Audit("rule.retire", true, "retired_by_approver", id, who.sub), Answered(Retired))
  }

  function Do(h: string -> string, t: Table, c: Call): Effect {
    match c
    case Propose(who, id, text, selfActivate) => DoPropose(h, t, who, id, text, selfActivate)
    case Decide(who, id, approve, hash) => DoDecide(t, who, id, approve, hash)
    case Retire(who, id) => DoRetire(t, who, id)
  }

  /** `gen_random_uuid` never returns an id in use. */
  predicate Fresh(t: Table, c: Call) {
    c.Propose? ==> c.id !in t
  }

  // The Range's recovery: what nobody approved is retired, with one audit row for each rule.

  function RecoveryRow(id: RuleId): Audit {
    Audit("rule.retire", true, "retired:activated_without_approval", id, "the-range")
  }

  function RecoveryRows(ids: set<RuleId>): set<Audit> {
    set id | id in ids :: RecoveryRow(id)
  }

  predicate Unapproved(r: Rule) {
    r.state == Active && r.decidedBy.None?
  }

  function UnapprovedIn(t: Table): set<RuleId> {
    set id | id in t && Unapproved(t[id])
  }

  function Recovered(t: Table, retired: set<RuleId>): Table {
    map id | id in t :: if id in retired then Withdrawn(t[id], "the-range") else t[id]
  }

  // ---------------------------------------------------------------------------------------------
  // What every call keeps
  // ---------------------------------------------------------------------------------------------

  /** Separation of duty, as the row itself shows it. */
  predicate Separated(r: Rule) {
    && (r.state == Proposed ==> r.decidedBy.None? && r.retiredBy.None?)
    && (r.state == Rejected ==> r.decidedBy.Some?)
    && (r.state in {Active, Rejected} ==> r.retiredBy.None?)
    && (r.state == Retired ==> r.retiredBy.Some?)
    && r.decidedBy != Some(r.proposedBy)
  }

  predicate Forward(a: RuleState, b: RuleState) {
    a == b || (a == Proposed && b in {Active, Rejected, Retired}) || (a == Active && b == Retired)
  }

  /**
   Policies are combined with OR, so an approver may mix the row one policy opens with the values
   another allows. Whatever the mix, an update the trigger lets through keeps the duties separate,
   moves the state forward, and leaves an approval on the record.
   */
  lemma NoUpdateForgesAnApproval(before: Rule, after: Rule)
    requires Separated(before) && !Refuses(before, after)
    ensures Separated(after)
    ensures Forward(before.state, after.state) && before.state != after.state
    ensures before.decidedBy.Some? ==> after.decidedBy == before.decidedBy
    ensures after.state == Active ==> after.decidedBy.Some?
    ensures after.text == before.text && after.hash == before.hash
    ensures after.proposedBy == before.proposedBy && after.org == before.org
  {
  }

  /** Some approver other than the proposer named the hash of this very text. */
  ghost predicate StandsOn(h: string -> string, r: Rule, id: RuleId, d: Decision) {
    && d.rule == id
    && r.decidedBy == Some(d.who.sub)
    && d.who.sub != r.proposedBy
    && d.who.org == r.org
    && IsApprover(d.who)
    && d.hash == h(r.text)
    && d.approve == (r.state != Rejected)
  }

  ghost predicate Approved(h: string -> string, r: Rule, id: RuleId, decisions: set<Decision>) {
    exists d :: d in decisions && StandsOn(h, r, id, d)
  }

  /** Kept by every call: a rule that names a decider stands on that decision. */
  ghost predicate RuleOk(h: string -> string, t: Table, id: RuleId, decisions: set<Decision>)
    requires id in t
  {
    && Separated(t[id])
    && t[id].hash == h(t[id].text)
    && (t[id].decidedBy.Some? ==> Approved(h, t[id], id, decisions))
  }

  ghost predicate TableOk(h: string -> string, t: Table, decisions: set<Decision>) {
    forall id :: id in t ==> RuleOk(h, t, id, decisions)
  }

  /** Kept while self-activation is off: everything past a proposal names its decider. */
  predicate AllDecided(t: Table) {
    forall id | id in t :: t[id].state != Proposed ==> t[id].decidedBy.Some?
  }

  /** The decisions that took effect. */
  function Heard(h: string -> string, t: Table, decisions: set<Decision>, c: Call): set<Decision> {
    if c.Decide? && Do(h, t, c).row.succeeded then decisions + {Decision(c.id, c.who, c.approve, c.hash)} else decisions
  }

  lemma MoreDecisions(h: string -> string, t: Table, few: set<Decision>, many: set<Decision>)
    requires TableOk(h, t, few) && few <= many
    ensures TableOk(h, t, many)
  {
    forall id | id in t ensures RuleOk(h, t, id, many) {
      assert RuleOk(h, t, id, few);
    }
  }

  lemma CallKeeps(h: string -> string, t: Table, decisions: set<Decision>, c: Call)
    requires TableOk(h, t, decisions) && Fresh(t, c)
    ensures TableOk(h, Do(h, t, c).table, Heard(h, t, decisions, c))
    ensures AllDecided(t) && (c.Propose? ==> !c.selfActivate) ==> AllDecided(Do(h, t, c).table)
  {
    var after, heard := Do(h, t, c).table, Heard(h, t, decisions, c);
    MoreDecisions(h, t, decisions, heard);
    forall id | id in after ensures RuleOk(h, after, id, heard) {
      if id in t {
        assert RuleOk(h, t, id, heard);
        if after[id] != t[id] {
          if c.Decide? {
            assert StandsOn(h, after[id], id, Decision(c.id, c.who, c.approve, c.hash));
          } else if t[id].decidedBy.Some? {
            var d :| d in heard && StandsOn(h, t[id], id, d);
            assert StandsOn(h, after[id], id, d);
          }
        }
      }
    }
  }

  /** A refused call changes nothing; a call that succeeded changed the table. */
  lemma SucceededMeansChanged(h: string -> string, t: Table, c: Call)
    requires Fresh(t, c)
    ensures Do(h, t, c).row.succeeded <==> Do(h, t, c).table != t
    ensures Do(h, t, c).row.succeeded <==> Do(h, t, c).reply.Answered?
    ensures Do(h, t, c).reply.Answered? ==> c.id in Do(h, t, c).table && Do(h, t, c).table[c.id].state == Do(h, t, c).reply.state
    ensures forall id :: id in t && id != c.id ==> id in Do(h, t, c).table && Do(h, t, c).table[id] == t[id]
  {
    var after := Do(h, t, c).table;
    if Do(h, t, c).row.succeeded {
      if c.id in t {
        assert after[c.id].state != t[c.id].state;
      } else {
        assert c.id in after;
      }
    }
  }

  /** A decision takes effect exactly for another approver of the organisation, on a proposal, naming its hash. */
  lemma DecisionTakesEffectExactly(h: string -> string, t: Table, c: Call)
    requires c.Decide? && forall id :: id in t ==> Separated(t[id])
    ensures Do(h, t, c).row.succeeded
            <==> && ("support_manager" in c.who.roles || "finance_approver" in c.who.roles)
                 && c.id in t && t[c.id].org == c.who.org && t[c.id].state == Proposed
                 && t[c.id].hash == c.hash
                 && t[c.id].proposedBy != c.who.sub
  {
  }

  /** A refused decision changes nothing and says why: no approver, nothing to decide, another text, one's own rule. */
  lemma DecisionRefusedExactly(h: string -> string, t: Table, c: Call)
    requires c.Decide? && forall id :: id in t ==> Separated(t[id])
    ensures var e := Do(h, t, c);
      var approver := "support_manager" in c.who.roles || "finance_approver" in c.who.roles;
      var open := c.id in t && t[c.id].org == c.who.org && t[c.id].state == Proposed;
      && (!approver ==> e == Effect(t, Audit("rule.decide", false, "not_an_approver", c.id, c.who.sub), Forbidden))
      && (approver && !open ==>
            e == Effect(t, Audit("rule.decide", false, "not_a_visible_proposal", c.id, c.who.sub), NotFound))
      && (approver && open && t[c.id].hash != c.hash ==>
            e == Effect(t, Audit("rule.decide", false, "payload_hash_mismatch", c.id, c.who.sub), Conflict))
      && (approver && open && t[c.id].hash == c.hash && t[c.id].proposedBy == c.who.sub ==>
            e == Effect(t, Audit("rule.decide", false, "self_approval_refused_by_store", c.id, c.who.sub), Forbidden))
      && (approver && open && t[c.id].hash == c.hash && t[c.id].proposedBy != c.who.sub ==>
            e.reply == Answered(if c.approve then Active else Rejected)
            && c.id in e.table && e.table[c.id].decidedBy == Some(c.who.sub))
  {
  }

  /** A decision that takes effect says which it was. */
  lemma DecisionSaysWhich(t: Table, who: Principal, id: RuleId, approve: bool, hash: string)
    requires DoDecide(t, who, id, approve, hash).row.succeeded
    ensures DoDecide(t, who, id, approve, hash).row.reason == if approve then "approved_by_other_person" else "rejectd_by_other_person"
  {
  }

  /** Only one's own proposals are seen by somebody who is no approver, and never another organisation's rules. */
  lemma ProposalsAreSeenExactly(p: Principal, r: Rule)
    ensures r.state == Proposed ==>
              (Visible(p, r) <==> && r.org == p.org
                                  && (p.sub == r.proposedBy || "support_manager" in p.roles || "finance_approver" in p.roles))
    ensures r.state == Active ==> (Visible(p, r) <==> r.org == p.org)
  {
  }

  // ---------------------------------------------------------------------------------------------
  // Whole runs
  // ---------------------------------------------------------------------------------------------

  /** A call of the service, or the Range's recovery. */
  datatype Step = Asked(call: Call) | Recovery

  /** `trail` holds the audit rows each step left; the database promises no order within a recovery. */
  datatype Book = Book(table: Table, trail: seq<set<Audit>>, decisions: set<Decision>)

  const EMPTY := Book(map[], [], {})

  function TableAfter(h: string -> string, t: Table, step: Step): Table {
    match step
    case Asked(c) => Do(h, t, c).table
    case Recovery => Recovered(t, UnapprovedIn(t))
  }

  function RowsOf(h: string -> string, t: Table, step: Step): set<Audit> {
    match step
    case Asked(c) => {Do(h, t, c).row}
    case Recovery => RecoveryRows(UnapprovedIn(t))
  }

  function After(h: string -> string, b: Book, step: Step): Book {
    Book(TableAfter(h, b.table, step), b.trail + [RowsOf(h, b.table, step)],
         if step.Asked? then Heard(h, b.table, b.decisions, step.call) else b.decisions)
  }

  function Run(h: string -> string, steps: seq<Step>): Book {
    if |steps| == 0 then EMPTY else After(h, Run(h, steps[..|steps| - 1]), steps[|steps| - 1])
  }

  predicate FreshStep(t: Table, step: Step) {
    step.Asked? ==> Fresh(t, step.call)
  }

  ghost predicate Legal(h: string -> string, steps: seq<Step>) {
    forall i :: 0 <= i < |steps| ==> FreshStep(Run(h, steps[..i]).table, steps[i])
  }

  /** Self-activation is never armed. */
  predicate Secure(steps: seq<Step>) {
    forall i :: 0 <= i < |steps| && steps[i].Asked? && steps[i].call.Propose? ==> !steps[i].call.selfActivate
  }

  lemma LegalPrefix(h: string -> string, steps: seq<Step>, n: nat)
    requires Legal(h, steps) && n <= |steps|
    ensures Legal(h, steps[..n])
  {
    forall i | 0 <= i < n ensures FreshStep(Run(h, steps[..n][..i]).table, steps[..n][i]) {
      assert steps[..n][..i] == steps[..i];
    }
  }

  lemma RecoveryKeeps(h: string -> string, t: Table, decisions: set<Decision>)
    requires TableOk(h, t, decisions)
    ensures TableOk(h, Recovered(t, UnapprovedIn(t)), decisions)
    ensures AllDecided(t) ==> Recovered(t, UnapprovedIn(t)) == t
  {
    var after := Recovered(t, UnapprovedIn(t));
    forall id | id in after ensures RuleOk(h, after, id, decisions) {
      assert RuleOk(h, t, id, decisions);
    }
  }

  lemma {:induction false} EveryRunKeeps(h: string -> string, steps: seq<Step>)
    requires Legal(h, steps)
    ensures TableOk(h, Run(h, steps).table, Run(h, steps).decisions)
    ensures Secure(steps) ==> AllDecided(Run(h, steps).table)
  {
    if |steps| > 0 {
      var n := |steps| - 1;
      LegalPrefix(h, steps, n);
      EveryRunKeeps(h, steps[..n]);
      var b := Run(h, steps[..n]);
      match steps[n] {
        case Asked(c) => CallKeeps(h, b.table, b.decisions, c);
        case Recovery => RecoveryKeeps(h, b.table, b.decisions);
      }
    }
  }

  /**
   In every run with self-activation off, each rule past a proposal, retired ones too, was decided by
   an approver other than its proposer who named the hash of its text.
   */
  lemma EveryRuleWasApproved(h: string -> string, steps: seq<Step>, id: RuleId)
    requires Legal(h, steps) && id in Run(h, steps).table && Run(h, steps).table[id].state != Proposed
    requires Secure(steps)
    ensures Approved(h, Run(h, steps).table[id], id, Run(h, steps).decisions)
  {
    EveryRunKeeps(h, steps);
    assert RuleOk(h, Run(h, steps).table, id, Run(h, steps).decisions);
  }

  // --- the audit trail ---

  predicate Changed(before: Table, after: Table, id: RuleId) {
    if id in before && id in after then before[id] != after[id] else id in before || id in after
  }

  /** Some row of the step says that this rule's change succeeded. */
  predicate SaysChanged(rows: set<Audit>, id: RuleId) {
    exists row :: row in rows && row.rule == id && row.succeeded
  }

  lemma CallChanges(h: string -> string, t: Table, c: Call, id: RuleId)
    requires Fresh(t, c)
    ensures Changed(t, Do(h, t, c).table, id) <==> c.id == id && Do(h, t, c).row.succeeded
    ensures Do(h, t, c).row.rule == c.id && Do(h, t, c).row.who == c.who.sub
  {
  }

  lemma StepChanges(h: string -> string, t: Table, step: Step, id: RuleId)
    requires FreshStep(t, step)
    ensures Changed(t, TableAfter(h, t, step), id) <==> SaysChanged(RowsOf(h, t, step), id)
  {
    match step {
      case Asked(c) =>
        CallChanges(h, t, c, id);
        assert Do(h, t, c).row in RowsOf(h, t, step);
      case Recovery =>
        if id in UnapprovedIn(t) {
          assert RecoveryRow(id) in RowsOf(h, t, step);
        }
    }
  }

  lemma TrailSnoc(h: string -> string, steps: seq<Step>)
    requires |steps| > 0
    ensures var first, last := steps[..|steps| - 1], steps[|steps| - 1];
      Run(h, steps).trail == Run(h, first).trail + [RowsOf(h, Run(h, first).table, last)]
  {
  }

  lemma {:induction false} TrailLength(h: string -> string, steps: seq<Step>)
    ensures |Run(h, steps).trail| == |steps|
  {
    if |steps| > 0 {
      TrailLength(h, steps[..|steps| - 1]);
      TrailSnoc(h, steps);
    }
  }

  /** The rows of step `i` are the `i`th of the trail. */
  lemma {:induction false} TrailIsPerStep(h: string -> string, steps: seq<Step>, i: nat)
    requires i < |steps|
    ensures |Run(h, steps).trail| == |steps|
    ensures Run(h, steps).trail[i] == RowsOf(h, Run(h, steps[..i]).table, steps[i])
    decreases |steps|
  {
    TrailLength(h, steps);
    var first := steps[..|steps| - 1];
    TrailLength(h, first);
    TrailSnoc(h, steps);
    if i < |first| {
      assert first[..i] == steps[..i];
      TrailIsPerStep(h, first, i);
    }
  }

  /**
   The trail tells, step by step, which rules changed: the rows of a step say so of a rule exactly if
   it did, recoveries included, and the one row of a call names its rule and its caller.
   */
  lemma TrailTellsTheTruth(h: string -> string, steps: seq<Step>, i: nat, id: RuleId)
    requires Legal(h, steps) && i < |steps|
    ensures |Run(h, steps).trail| == |steps|
    ensures Changed(Run(h, steps[..i]).table, Run(h, steps[..i + 1]).table, id) <==> SaysChanged(Run(h, steps).trail[i], id)
    ensures steps[i].Asked? ==>
              exists row :: Run(h, steps).trail[i] == {row} && row.rule == steps[i].call.id && row.who == steps[i].call.who.sub
  {
    TrailIsPerStep(h, steps, i);
    RunSnoc(h, steps, i);
    var t := Run(h, steps[..i]).table;
    StepChanges(h, t, steps[i], id);
    if steps[i].Asked? {
      CallChanges(h, t, steps[i].call, id);
      assert Run(h, steps).trail[i] == {Do(h, t, steps[i].call).row};
    }
  }

  lemma RunSnoc(h: string -> string, steps: seq<Step>, i: nat)
    requires i < |steps|
    ensures Run(h, steps[..i + 1]).table == TableAfter(h, Run(h, steps[..i]).table, steps[i])
  {
    assert steps[..i + 1][..i] == steps[..i];
  }

  // --- rules only move forward ---

  predicate Moved(r: Rule, s: Rule) {
    && Forward(r.state, s.state)
    && s.text == r.text && s.hash == r.hash && s.proposedBy == r.proposedBy
    && (r.state != Proposed ==> s.decidedBy == r.decidedBy)
    && (r.state in {Rejected, Retired} ==> s == r)
  }

  lemma StepMovesForward(h: string -> string, t: Table, step: Step, id: RuleId)
    requires FreshStep(t, step) && id in t
    ensures id in TableAfter(h, t, step) && Moved(t[id], TableAfter(h, t, step)[id])
  {
  }

  lemma LastStepMovesForward(h: string -> string, steps: seq<Step>, id: RuleId)
    requires |steps| > 0
    requires var t := Run(h, steps[..|steps| - 1]).table; FreshStep(t, steps[|steps| - 1]) && id in t
    ensures id in Run(h, steps).table && Moved(Run(h, steps[..|steps| - 1]).table[id], Run(h, steps).table[id])
  {
    StepMovesForward(h, Run(h, steps[..|steps| - 1]).table, steps[|steps| - 1], id);
  }

  lemma MovedOn(r: Rule, s: Rule, u: Rule)
    requires Moved(r, s) && Moved(s, u)
    ensures Moved(r, u)
  {
  }

  lemma LegalLast(h: string -> string, steps: seq<Step>)
    requires Legal(h, steps) && |steps| > 0
    ensures Legal(h, steps[..|steps| - 1]) && FreshStep(Run(h, steps[..|steps| - 1]).table, steps[|steps| - 1])
  {
    LegalPrefix(h, steps, |steps| - 1);
  }

  /** Along every run a rule stays, its state only moves forward, and its text and its approval stay. */
  lemma {:induction false} RulesOnlyMoveForward(h: string -> string, steps: seq<Step>, n: nat, id: RuleId)
    requires Legal(h, steps) && n <= |steps| && id in Run(h, steps[..n]).table
    ensures id in Run(h, steps).table && Moved(Run(h, steps[..n]).table[id], Run(h, steps).table[id])
    decreases |steps|
  {
    if n == |steps| {
      assert steps[..n] == steps;
    } else {
      var first := steps[..|steps| - 1];
      LegalLast(h, steps);
      assert first[..n] == steps[..n];
      RulesOnlyMoveForward(h, first, n, id);
      LastStepMovesForward(h, steps, id);
      MovedOn(Run(h, steps[..n]).table[id], Run(h, first).table[id], Run(h, steps).table[id]);
    }
  }

  // --- whose rule it is ---

  /** The step is the proposal the rule came from: its caller, its organisation, its text. */
  predicate Proposes(step: Step, id: RuleId, r: Rule) {
    && step.Asked? && step.call.Propose? && step.call.id == id
    && r.proposedBy == step.call.who.sub && r.org == step.call.who.org && r.text == step.call.text
  }

  lemma NewRuleWasProposed(h: string -> string, t: Table, step: Step, id: RuleId)
    requires id !in t && id in TableAfter(h, t, step)
    ensures Proposes(step, id, TableAfter(h, t, step)[id])
  {
  }

  lemma ProposalStays(h: string -> string, t: Table, step: Step, origin: Step, id: RuleId)
    requires FreshStep(t, step) && id in t && Proposes(origin, id, t[id])
    ensures id in TableAfter(h, t, step) && Proposes(origin, id, TableAfter(h, t, step)[id])
  {
  }

  /** After every run each rule has the call that proposed it, made by the very person and for the text it names. */
  lemma {:induction false} EveryRuleHasItsProposer(h: string -> string, steps: seq<Step>, id: RuleId) returns (i: nat)
    requires Legal(h, steps) && id in Run(h, steps).table
    ensures i < |steps| && Proposes(steps[i], id, Run(h, steps).table[id])
    ensures id !in Run(h, steps[..i]).table
  {
    var n := |steps| - 1;
    LegalLast(h, steps);
    var t := Run(h, steps[..n]).table;
    if id in t {
      i := EveryRuleHasItsProposer(h, steps[..n], id);
      assert steps[..n][..i] == steps[..i];
      ProposalStays(h, t, steps[n], steps[i], id);
    } else {
      NewRuleWasProposed(h, t, steps[n], id);
      i := n;
    }
  }

  /** A rule begins as a proposal, or active with nobody's approval while self-activation is armed, and the audit row says which. */
  lemma ProposalStartsExactly(h: string -> string, steps: seq<Step>, i: nat)
    requires Legal(h, steps) && i < |steps| && steps[i].Asked? && steps[i].call.Propose?
    ensures |Run(h, steps).trail| == |steps|
    ensures var c, t := steps[i].call, Run(h, steps[..i + 1]).table;
      && c.id in t && t[c.id].hash == h(c.text) && t[c.id].decidedBy.None? && t[c.id].retiredBy.None?
      && t[c.id].state == (if c.selfActivate then Active else Proposed)
      && exists row :: row in Run(h, steps).trail[i] && row.succeeded
                       && row.reason == if c.selfActivate then "activated_without_approval" else "awaiting_approval"
  {
    RunSnoc(h, steps, i);
    TrailIsPerStep(h, steps, i);
    assert Do(h, Run(h, steps[..i]).table, steps[i].call).row in Run(h, steps).trail[i];
  }

  lemma OwnRuleStaysUndecided(h: string -> string, t: Table, c: Call)
    requires c.Decide? && (c.id in t ==> t[c.id].proposedBy == c.who.sub)
    ensures Do(h, t, c).table == t && !Do(h, t, c).row.succeeded
  {
  }

  lemma ProposedIsThere(h: string -> string, steps: seq<Step>, i: nat, n: nat)
    requires Legal(h, steps) && i < n <= |steps| && steps[i].Asked? && steps[i].call.Propose?
    ensures steps[i].call.id in Run(h, steps[..n]).table
  {
    LegalPrefix(h, steps, n);
    RunSnoc(h, steps, i);
    assert steps[..n][..i + 1] == steps[..i + 1];
    RulesOnlyMoveForward(h, steps[..n], i + 1, steps[i].call.id);
  }

  /** An id is proposed once. */
  lemma OneProposalOnly(h: string -> string, steps: seq<Step>, i: nat, k: nat)
    requires Legal(h, steps) && i < k < |steps|
    requires steps[i].Asked? && steps[i].call.Propose? && steps[k].Asked? && steps[k].call.Propose?
    ensures steps[i].call.id != steps[k].call.id
  {
    ProposedIsThere(h, steps, i, k);
    assert FreshStep(Run(h, steps[..k]).table, steps[k]);
  }

  lemma ProposerOnRecord(h: string -> string, steps: seq<Step>, i: nat, n: nat)
    requires Legal(h, steps) && i < n <= |steps| && steps[i].Asked? && steps[i].call.Propose?
    ensures var id := steps[i].call.id; id in Run(h, steps[..n]).table && Proposes(steps[i], id, Run(h, steps[..n]).table[id])
  {
    var id := steps[i].call.id;
    ProposedIsThere(h, steps, i, n);
    LegalPrefix(h, steps, n);
    var k := EveryRuleHasItsProposer(h, steps[..n], id);
    if i < k {
      OneProposalOnly(h, steps, i, k);
    } else if k < i {
      OneProposalOnly(h, steps, k, i);
    }
  }

  /**
   Separation of duty over every run: whoever made the call that proposed a rule never has a decision
   on it take effect, with whatever roles, whatever hash, and whenever it is made.
   */
  lemma ProposerNeverDecides(h: string -> string, steps: seq<Step>, i: nat, j: nat)
    requires Legal(h, steps) && i < j < |steps|
    requires steps[i].Asked? && steps[i].call.Propose? && steps[j].Asked? && steps[j].call.Decide?
    requires steps[i].call.id == steps[j].call.id && steps[i].call.who.sub == steps[j].call.who.sub
    ensures Run(h, steps[..j + 1]).table == Run(h, steps[..j]).table
  {
    ProposerOnRecord(h, steps, i, j);
    RunSnoc(h, steps, j);
    OwnRuleStaysUndecided(h, Run(h, steps[..j]).table, steps[j].call);
  }

  // --- what retires a rule ---

  /** Who a step retires the rule as, if it does: an approver of its organisation, or the recovery. */
  function Retirer(t: Table, step: Step, id: RuleId): Option<Sub> {
    if id !in t || t[id].state != Active then None
    else
      match step
      case Recovery => if t[id].decidedBy.None? then Some("the-range") else None
      case Asked(Retire(who, rule)) => if rule == id && IsApprover(who) && who.org == t[id].org then Some(who.sub) else None
      case _ => None
  }

  ghost predicate Retires(h: string -> string, steps: seq<Step>, i: int, id: RuleId) {
    0 <= i < |steps| && Retirer(Run(h, steps[..i]).table, steps[i], id).Some?
  }

  lemma StepRetires(h: string -> string, t: Table, step: Step, id: RuleId)
    requires FreshStep(t, step)
    ensures var u := TableAfter(h, t, step);
      && (id in u && u[id].state == Retired <==> (id in t && t[id].state == Retired) || Retirer(t, step, id).Some?)
      && (Retirer(t, step, id).Some? ==> u[id].retiredBy == Retirer(t, step, id))
  {
  }

  lemma RetiredStaysRetired(h: string -> string, steps: seq<Step>, i: nat, id: RuleId)
    requires Legal(h, steps) && Retires(h, steps, i, id)
    ensures id in Run(h, steps).table && Run(h, steps).table[id].state == Retired
    ensures Run(h, steps).table[id].retiredBy == Retirer(Run(h, steps[..i]).table, steps[i], id)
  {
    RunSnoc(h, steps, i);
    StepRetires(h, Run(h, steps[..i]).table, steps[i], id);
    RulesOnlyMoveForward(h, steps, i + 1, id);
  }

  lemma {:induction false} SomethingRetiredIt(h: string -> string, steps: seq<Step>, id: RuleId) returns (i: nat)
    requires Legal(h, steps) && id in Run(h, steps).table && Run(h, steps).table[id].state == Retired
    ensures Retires(h, steps, i, id)
  {
    var n := |steps| - 1;
    LegalLast(h, steps);
    var t := Run(h, steps[..n]).table;
    StepRetires(h, t, steps[n], id);
    if id in t && t[id].state == Retired {
      i := SomethingRetiredIt(h, steps[..n], id);
      assert steps[..n][..i] == steps[..i];
    } else {
      i := n;
    }
  }

  /**
   After every run a rule is retired exactly when at some step an approver of its organisation
   withdrew it while it was active, or a recovery found it active and undecided; and it names which.
   */
  lemma RetiredExactly(h: string -> string, steps: seq<Step>, id: RuleId)
    requires Legal(h, steps)
    ensures id in Run(h, steps).table && Run(h, steps).table[id].state == Retired <==> exists i :: Retires(h, steps, i, id)
    ensures forall i :: Retires(h, steps, i, id) ==>
              Run(h, steps).table[id].retiredBy == Retirer(Run(h, steps[..i]).table, steps[i], id)
  {
    forall i | Retires(h, steps, i, id)
      ensures id in Run(h, steps).table && Run(h, steps).table[id].state == Retired
      ensures Run(h, steps).table[id].retiredBy == Retirer(Run(h, steps[..i]).table, steps[i], id)
    {
      RetiredStaysRetired(h, steps, i, id);
    }
    if id in Run(h, steps).table && Run(h, steps).table[id].state == Retired {
      var i := SomethingRetiredIt(h, steps, id);
    }
  }

  // --- the recovery ---

  /** After the recovery every active rule is one somebody approved, and no approved rule was touched. */
  lemma RecoveryIsComplete(t: Table)
    ensures UnapprovedIn(Recovered(t, UnapprovedIn(t))) == {}
    ensures forall id :: id in t && t[id].decidedBy.Some? ==> Recovered(t, UnapprovedIn(t))[id] == t[id]
  {
  }

  /** With self-activation off the recovery finds nothing to do. */
  lemma RecoveryFindsNothing(h: string -> string, steps: seq<Step>)
    requires Legal(h, steps) && Secure(steps)
    ensures UnapprovedIn(Run(h, steps).table) == {}
  {
    EveryRunKeeps(h, steps);
  }

  /**
   After any run, self-activation armed or not, the recovery leaves active only rules that an approver
   other than the proposer approved by the hash of their text, and it changes no rule anybody decided.
   */
  lemma RecoveryLeavesOnlyApproved(h: string -> string, steps: seq<Step>, id: RuleId)
    requires Legal(h, steps) && id in Run(h, steps).table
    ensures var b := Run(h, steps);
      var t := TableAfter(h, b.table, Recovery);
      && id in t
      && (t[id].state == Active ==> Approved(h, t[id], id, b.decisions))
      && (b.table[id].decidedBy.Some? ==> t[id] == b.table[id])
  {
    EveryRunKeeps(h, steps);
    var b := Run(h, steps);
    assert RuleOk(h, b.table, id, b.decisions);
    RecoveryIsComplete(b.table);
  }

  // ---------------------------------------------------------------------------------------------
  // The service
  // ---------------------------------------------------------------------------------------------

  class RuleBook {
    const hash: string -> string
    var table: Table
    var trail: seq<Audit>

    constructor (hash: string -> string)
      ensures this.hash == hash && table == map[] && trail == []
    {
      this.hash := hash;
      table, trail := map[], [];
    }

    method Record(row: Audit)
      modifies this`trail
      ensures trail == old(trail) + [row]
    {
      trail := trail + [row];
    }

    /** One UPDATE behind the trigger: it takes effect, or it raises and the row is as it was. */
    method Update(id: RuleId, row: Rule) returns (raised: bool)
      requires id in table
      modifies this`table
      ensures raised == Refuses(old(table)[id], row)
      ensures table == if raised then old(table) else old(table)[id := row]
    {
      raised := Refuses(table[id], row);
      if !raised {
        table := table[id := row];
      }
    }

    method ProposeRule(who: Principal, id: RuleId, text: string, selfActivate: bool) returns (reply: Reply)
      requires id !in table
      modifies this
      ensures |trail| > 0 && trail[..|trail| - 1] == old(trail)
      ensures Effect(table, trail[|trail| - 1], reply) == DoPropose(hash, old(table), who, id, text, selfActivate)
    {
      var state := if selfActivate then Active else Proposed;
      table := table[id := Rule(who.org, text, hash(text), state, who.sub, None, None)];
      Record(Audit("rule.propose", true, if selfActivate then "activated_without_approval" else "awaiting_approval", id, who.sub));
      reply := Answered(state);
    }

    method DecideRule(who: Principal, id: RuleId, approve: bool, payloadHash: string) returns (reply: Reply)
      modifies this
      ensures |trail| > 0 && trail[..|trail| - 1] == old(trail)
      ensures Effect(table, trail[|trail| - 1], reply) == DoDecide(old(table), who, id, approve, payloadHash)
    {
      if !IsApprover(who) {
        Record(Audit("rule.decide", false, "not_an_approver", id, who.sub));
        reply := Forbidden;
      } else if id !in table || !Visible(who, table[id]) || table[id].state != Proposed {
        Record(Audit("rule.decide", false, "not_a_visible_proposal", id, who.sub));
        reply := NotFound;
      } else if table[id].hash != payloadHash {
        Record(Audit("rule.decide", false, "payload_hash_mismatch", id, who.sub));
        reply := Conflict;
      } else {
        var raised := Update(id, Decided(table[id], who, approve));
        if raised {
          Record(Audit("rule.decide", false, "self_approval_refused_by_store", id, who.sub));
          reply := Forbidden;
        } else {
          Record(Audit("rule.decide", true, (if approve then "approve" else "reject") + "d_by_other_person", id, who.sub));
          reply := Answered(if approve then Active else Rejected);
        }
      }
    }

    method RetireRule(who: Principal, id: RuleId) returns (reply: Reply)
      modifies this
      ensures |trail| > 0 && trail[..|trail| - 1] == old(trail)
      ensures Effect(table, trail[|trail| - 1], reply) == DoRetire(old(table), who, id)
    {
      if !IsApprover(who) {
        Record(Audit("rule.retire", false, "not_an_approver", id, who.sub));
        return Forbidden;
      }
      if id in table && table[id].org == who.org && table[id].state == Active {
        var raised := Update(id, Withdrawn(table[id], who.sub));
        assert !raised;
        Record(Audit("rule.retire", true, "retired_by_approver", id, who.sub));
        return Answered(Retired);
      }
      Record(Audit("rule.retire", false, "not_a_visible_active_rule", id, who.sub));
      return NotFound;
    }

    method RetireOne(id: RuleId)
      requires id in table && Unapproved(table[id])
      modifies this
      ensures table == old(table)[id := Withdrawn(old(table)[id], "the-range")]
      ensures trail == old(trail) + [RecoveryRow(id)]
    {
      var raised := Update(id, Withdrawn(table[id], "the-range"));
      assert !raised;
      Record(RecoveryRow(id));
    }

    /** The Range's recovery: retire every active rule that nobody approved, one audit row for each. */
    method RetireUnapproved() returns (retired: nat, ghost rows: seq<Audit>)
      modifies this
      ensures table == TableAfter(hash, old(table), Recovery)
      ensures retired == |UnapprovedIn(old(table))| == |rows|
      ensures trail == old(trail) + rows && Elements(rows) == RowsOf(hash, old(table), Recovery)
    {
      ghost var before, trail0 := table, trail;
      rows := [];
      var todo := UnapprovedIn(table);
      retired := 0;
      while todo != {}
        invariant Recovering(before, trail0, table, trail, todo, rows, retired)
      {
        var id :| id in todo;
        RecoveringOneMore(before, trail0, table, trail, todo, rows, retired, id);
        RetireOne(id);
        rows := rows + [RecoveryRow(id)];
        todo := todo - {id};
        retired := retired + 1;
      }
    }
  }

  /** Halfway through the recovery, with the rules in `todo` still to be retired. */
  ghost predicate Recovering(before: Table, trail0: seq<Audit>, now: Table, trail: seq<Audit>, todo: set<RuleId>,
                             rows: seq<Audit>, retired: nat)
  {
    && todo <= UnapprovedIn(before)
    && now == Recovered(before, UnapprovedIn(before) - todo)
    && retired + |todo| == |UnapprovedIn(before)|
    && retired == |rows|
    && trail == trail0 + rows
    && Elements(rows) == RecoveryRows(UnapprovedIn(before) - todo)
  }

  lemma RecoveringOneMore(before: Table, trail0: seq<Audit>, now: Table, trail: seq<Audit>, todo: set<RuleId>, rows: seq<Audit>,
                          retired: nat, id: RuleId)
    requires Recovering(before, trail0, now, trail, todo, rows, retired) && id in todo
    ensures id in now && Unapproved(now[id])
    ensures Recovering(before, trail0, now[id := Withdrawn(now[id], "the-range")], trail + [RecoveryRow(id)], todo - {id},
                       rows + [RecoveryRow(id)], retired + 1)
  {
    ElementsOneMore(rows, RecoveryRow(id));
    RowsOneMore(UnapprovedIn(before) - todo, id);
    RecoveredOneMore(before, UnapprovedIn(before) - todo, id);
    assert UnapprovedIn(before) - (todo - {id}) == (UnapprovedIn(before) - todo) + {id};
  }

  lemma RecoveredOneMore(t: Table, done: set<RuleId>, id: RuleId)
    requires id in t && Unapproved(t[id]) && id !in done
    ensures var now := Recovered(t, done);
      && id in now && Unapproved(now[id])
      && now[id := Withdrawn(now[id], "the-range")] == Recovered(t, done + {id})
  {
  }

  function Elements(rows: seq<Audit>): set<Audit> {
    set row | row in rows
  }

  lemma ElementsOneMore(rows: seq<Audit>, row: Audit)
    ensures Elements(rows + [row]) == Elements(rows) + {row}
  {
  }

  lemma RowsOneMore(ids: set<RuleId>, id: RuleId)
    ensures RecoveryRows(ids + {id}) == RecoveryRows(ids) + {RecoveryRow(id)}
  {
    forall row | row in RecoveryRows(ids) + {RecoveryRow(id)} ensures row in RecoveryRows(ids + {id}) {
      var x :| x in ids + {id} && row == RecoveryRow(x);
    }
  }
}
