/**
 The policy bundle: what the Range writes, what OPA has read, and what the probe may say about it.

 OPA reads the bundle when it starts and never again. The clock never goes back, but it may stand
 still; the file's time is its last write, the container's its last start.
 */
module PolicyBundle {
  import opened Wrappers

  // ---------------------------------------------------------------------------------------------
  // Texts
  // ---------------------------------------------------------------------------------------------

  function Lines(lines: seq<string>): string {
    if |lines| == 0 then "" else lines[0] + "\n" + Lines(lines[1..])
  }

  /** A variant takes one line out of an arm, and removes one deny arm with the blank line after it. */
  datatype Edit = Edit(before: seq<string>, condition: string, after: seq<string>, deny: seq<string>) {
    function ArmLines(): seq<string> { before + [condition] + after }
    function Arm(): string { Lines(ArmLines()) + "}" }
    function Edited(): string { Lines(before + after) + "}" }
    function Removable(): string { Lines(deny) + "}\n\n" }
  }

  // The three longest lines are put together from words: the solver reads a literal character by character.
  const ALLOW_ORDER_READ :=
    "decision := allow_with(" + "\"same_organization_" + "and_allowed_role\"" + ", {\"allowed_fields\": " + "order_fields}) if {"
  const ORDER_READ := "\tinput.action == \"order.read\""
  const IN_TENANT := "\tin_tenant"
  const NOT_IN_TENANT := "\tnot in_tenant"
  const ANY_ROLE := "\tany_role(read_roles)"
  const NOT_ANY_ROLE := "\tnot any_role(read_roles)"
  const DENY_TENANT := "decision := deny(" + "\"not_a_member_of_" + "resource_organization\"" + ") if {"
  const DENY_ROLE := "decision := deny(" + "\"role_not_permitted_" + "for_action\"" + ") if {"
  const PERMITS := "delegation_permits if {"
  const DELEGATION := "\tinput.delegation"
  const NOT_NEVER := "\tnot never_delegable"
  const SCOPE_GRANTED := "\tscope_granted"
  const NOT_SCOPE_GRANTED := "\tnot scope_granted"
  const DENY_SCOPE := "delegation_denial := \"scope_not_granted\" if {"

  const TENANT := Edit([ALLOW_ORDER_READ, ORDER_READ], IN_TENANT, [ANY_ROLE], [DENY_TENANT, ORDER_READ, NOT_IN_TENANT])
  const ROLE := Edit([ALLOW_ORDER_READ, ORDER_READ, IN_TENANT], ANY_ROLE, [], [DENY_ROLE, ORDER_READ, IN_TENANT, NOT_ANY_ROLE])
  const SCOPE := Edit([PERMITS, DELEGATION, NOT_NEVER], SCOPE_GRANTED, [], [DENY_SCOPE, DELEGATION, NOT_NEVER, NOT_SCOPE_GRANTED])

  const CONFLICT_RULE := "\n\n"
      + "decision := deny(\"range_conflict_probe\") if {\n"
      + "\tinput.action == \"order.read\"\n"
      + "}\n"
  const REAL_PACKAGE := "package supportpilot.authz\n"
  const MOVED_PACKAGE := "package supportpilot.authz_moved\n"

  datatype Variant = Tenant | Role | Scope | Conflict | Undefined

  predicate OccursAt(text: string, part: string, i: int) {
    0 <= i && i + |part| <= |text| && text[i..i + |part|] == part
  }

  /** The first place at or after `start` where the part stands. */
  function Find(text: string, part: string, start: nat): (r: Option<nat>)
    requires start <= |text|
    ensures r.Some? ==> start <= r.value && OccursAt(text, part, r.value)
    ensures forall j | start <= j && OccursAt(text, part, j) :: r.Some? && r.value <= j
    decreases |text| - start
  {
    if OccursAt(text, part, start) then Some(start)
    else if start < |text| then Find(text, part, start + 1)
    else None
  }

  predicate Contains(text: string, part: string) {
    Find(text, part, 0).Some?
  }

  /** `text.replace(part, replacement, 1)` */
  function ReplaceFirst(text: string, part: string, replacement: string): (r: string)
    ensures |r| == |text| + if Contains(text, part) then |replacement| - |part| else 0
  {
    match Find(text, part, 0)
    case Some(i) => text[..i] + replacement + text[i + |part|..]
    case None => text
  }

  function Cut(source: string, e: Edit): Option<string> {
    if !Contains(source, e.Arm()) || !Contains(source, e.Removable()) then None
    else
      var out := ReplaceFirst(ReplaceFirst(source, e.Arm(), e.Edited()), e.Removable(), "");
      if out == source then None else Some(out)
  }

  /** `permissive_text`; nothing when the policy has been edited so that the transform no longer fits it. */
  function VariantText(source: string, v: Variant): Option<string> {
    match v
    case Tenant => Cut(source, TENANT)
    case Role => Cut(source, ROLE)
    case Scope => Cut(source, SCOPE)
    case Conflict => Some(source + CONFLICT_RULE)
    case Undefined => if Contains(source, REAL_PACKAGE) then Some(ReplaceFirst(source, REAL_PACKAGE, MOVED_PACKAGE)) else None
  }

  // ---------------------------------------------------------------------------------------------
  // The arm and the deny arm never overlap
  // ---------------------------------------------------------------------------------------------

  predicate IsLine(line: string) {
    |line| > 0 && '\n' !in line
  }

  predicate AreLines(lines: seq<string>) {
    forall i :: 0 <= i < |lines| ==> IsLine(lines[i])
  }

  predicate NoBlankLine(text: string) {
    forall i :: 0 <= i < |text| - 1 ==> text[i] != '\n' || text[i + 1] != '\n'
  }

  /** Counted from their ends, two lines differ somewhere. */
  predicate EndApart(a: string, b: string, t: nat) {
    1 <= t <= |a| && t <= |b| && a[|a| - t] != b[|b| - t]
  }

  /** What the three edits have in common: real lines, no closing brace in the deny lines, and different last lines. */
  predicate WellFormed(e: Edit, t: nat) {
    && AreLines(e.ArmLines()) && AreLines(e.deny) && |e.deny| > 0
    && (forall i :: 0 <= i < |e.deny| ==> '}' !in e.deny[i])
    && EndApart(e.ArmLines()[|e.ArmLines()| - 1], e.deny[|e.deny| - 1], t)
  }

  lemma {:induction false} LinesOfConcat(a: seq<string>, b: seq<string>)
    ensures Lines(a + b) == Lines(a) + Lines(b)
  {
    if |a| == 0 {
      assert a + b == b;
    } else {
      assert (a + b)[1..] == a[1..] + b;
      LinesOfConcat(a[1..], b);
    }
  }

  lemma OneLine(line: string)
    ensures Lines([line]) == line + "\n"
  {
    assert [line][1..] == [];
    NothingAfter(line + "\n");
  }

  lemma NothingAfter(text: string)
    ensures text + "" == text
  {
  }

  lemma Regroup(a: string, b: string, c: string)
    ensures a + (b + c) == a + b + c
  {
  }

  lemma LastLine(lines: seq<string>)
    requires |lines| > 0
    ensures Lines(lines) == Lines(lines[..|lines| - 1]) + lines[|lines| - 1] + "\n"
  {
    var front, last := lines[..|lines| - 1], lines[|lines| - 1];
    assert lines == front + [last];
    LinesOfConcat(front, [last]);
    OneLine(last);
    Regroup(Lines(front), last, "\n");
  }

  lemma {:induction false} LinesAreClean(lines: seq<string>)
    requires AreLines(lines)
    ensures NoBlankLine(Lines(lines))
    ensures |lines| > 0 ==> |Lines(lines)| > 0 && Lines(lines)[0] != '\n'
  {
    if |lines| > 0 {
      LinesAreClean(lines[1..]);
      assert IsLine(lines[0]);
      JoinClean(lines[0], Lines(lines[1..]));
    }
  }

  lemma JoinClean(line: string, rest: string)
    requires IsLine(line) && NoBlankLine(rest) && (|rest| > 0 ==> rest[0] != '\n')
    ensures NoBlankLine(line + "\n" + rest) && (line + "\n" + rest)[0] != '\n'
  {
    var text := line + "\n" + rest;
    forall i | 0 <= i < |text| - 1 ensures text[i] != '\n' || text[i + 1] != '\n' {
      if i < |line| {
        assert text[i] == line[i] && line[i] in line;
      } else if i > |line| {
        assert text[i] == rest[i - |line| - 1] && text[i + 1] == rest[i - |line|];
      }
    }
    assert text[0] == line[0] && line[0] in line;
  }

  lemma {:induction false} AbsentFromLines(c: char, lines: seq<string>)
    requires c != '\n'
    ensures c in Lines(lines) <==> exists i :: 0 <= i < |lines| && c in lines[i]
  {
    if |lines| > 0 {
      AbsentFromLines(c, lines[1..]);
      assert c in Lines(lines) <==> c in lines[0] || c in Lines(lines[1..]);
      if i :| 0 <= i < |lines[1..]| && c in lines[1..][i] {
        assert c in lines[i + 1];
      }
      if i :| 0 <= i < |lines| && c in lines[i] {
        assert i == 0 || c in lines[1..][i - 1];
      }
    }
  }

  /** What an arm looks like from its two ends. */
  lemma ArmShape(e: Edit, t: nat)
    requires WellFormed(e, t)
    ensures var arm, last := e.Arm(), e.ArmLines()[|e.ArmLines()| - 1];
      && |arm| >= 2 + t && arm[0] != '\n' && arm[|arm| - 1] == '}' && NoBlankLine(arm)
      && arm[|arm| - 2 - t] == last[|last| - t]
  {
    var lines := e.ArmLines();
    LinesAreClean(lines);
    LastLine(lines);
    var body, last := Lines(lines), lines[|lines| - 1];
    assert e.Arm() == body + "}";
    assert body == Lines(lines[..|lines| - 1]) + last + "\n";
    assert body[|body| - 1 - t] == last[|last| - t];
    assert e.Arm()[|e.Arm()| - 2 - t] == body[|body| - 1 - t];
    forall i | 0 <= i < |e.Arm()| - 1 ensures e.Arm()[i] != '\n' || e.Arm()[i + 1] != '\n' {
      if i < |body| - 1 {
        assert e.Arm()[i] == body[i] && e.Arm()[i + 1] == body[i + 1];
      }
    }
  }

  lemma RemovableShape(e: Edit, t: nat)
    requires WellFormed(e, t)
    ensures var r, last := e.Removable(), e.deny[|e.deny| - 1];
      && |r| >= 4 + t && r[|r| - 3] == '}' && r[|r| - 2] == '\n' && r[|r| - 1] == '\n'
      && (forall i :: 0 <= i < |r| - 3 ==> r[i] != '}')
      && r[|r| - 4 - t] == last[|last| - t]
  {
    var body, last := Lines(e.deny), e.deny[|e.deny| - 1];
    LastLine(e.deny);
    AbsentFromLines('}', e.deny);
    assert body == Lines(e.deny[..|e.deny| - 1]) + last + "\n";
    assert body[|body| - 1 - t] == last[|last| - t];
    assert e.Removable()[|e.Removable()| - 4 - t] == body[|body| - 1 - t];
    forall i | 0 <= i < |e.Removable()| - 3 ensures e.Removable()[i] != '}' {
      assert e.Removable()[i] == body[i] && body[i] in body;
    }
  }

  lemma CharsOf(text: string, part: string, i: nat)
    requires OccursAt(text, part, i)
    ensures forall k :: 0 <= k < |part| ==> text[i + k] == part[k]
  {
    forall k | 0 <= k < |part| ensures text[i + k] == part[k] {
      assert text[i..i + |part|][k] == text[i + k];
    }
  }

  lemma OneBrace(text: string, e: Edit, t: nat, j: nat)
    requires WellFormed(e, t) && OccursAt(text, e.Removable(), j)
    ensures var close := j + |e.Removable()| - 3;
      && close - 1 - t >= j
      && (forall p :: j <= p < close ==> text[p] != '}')
      && text[close] == '}' && text[close + 1] == '\n' && text[close + 2] == '\n'
      && text[close - 1 - t] == e.deny[|e.deny| - 1][|e.deny[|e.deny| - 1]| - t]
  {
    RemovableShape(e, t);
    CharsOf(text, e.Removable(), j);
    var r := e.Removable();
    assert text[j + (|r| - 3)] == r[|r| - 3] && text[j + (|r| - 2)] == r[|r| - 2] && text[j + (|r| - 1)] == r[|r| - 1];
    assert text[j + (|r| - 4 - t)] == r[|r| - 4 - t];
    forall p | j <= p < j + |r| - 3 ensures text[p] != '}' {
      assert text[j + (p - j)] == r[p - j];
    }
  }

  lemma NoBlankInside(text: string, e: Edit, t: nat, i: nat)
    requires WellFormed(e, t) && OccursAt(text, e.Arm(), i)
    ensures var brace, last := i + |e.Arm()| - 1, e.ArmLines()[|e.ArmLines()| - 1];
      && brace - 1 - t >= i
      && (forall p :: i <= p < brace ==> text[p] != '\n' || text[p + 1] != '\n')
      && text[i] != '\n' && text[brace] == '}'
      && text[brace - 1 - t] == last[|last| - t]
  {
    ArmShape(e, t);
    CharsOf(text, e.Arm(), i);
    var arm := e.Arm();
    assert text[i + 0] == arm[0] && text[i + (|arm| - 1)] == arm[|arm| - 1] && text[i + (|arm| - 2 - t)] == arm[|arm| - 2 - t];
    forall p | i <= p < i + |arm| - 1 ensures text[p] != '\n' || text[p + 1] != '\n' {
      assert text[i + (p - i)] == arm[p - i] && text[i + (p - i + 1)] == arm[p - i + 1];
    }
  }

  /** The only closing brace of a deny arm is followed by a blank line; an arm ends in one and holds no blank line. */
  lemma NeverOverlap(text: string, e: Edit, t: nat, i: nat, j: nat)
    requires WellFormed(e, t) && OccursAt(text, e.Arm(), i) && OccursAt(text, e.Removable(), j)
    ensures j + |e.Removable()| <= i || i + |e.Arm()| <= j
  {
    OneBrace(text, e, t, j);
    NoBlankInside(text, e, t, i);
    var brace, close := i + |e.Arm()| - 1, j + |e.Removable()| - 3;
    assert text[brace - 1 - t] != text[close - 1 - t];
    assert text[close + 1] == text[close + 2] == '\n';
  }

  predicate Splits(text: string, before: string, part: string, after: string) {
    text == before + part + after
  }

  lemma ReplacedSplits(text: string, part: string, replacement: string) returns (before: string, after: string)
    requires Contains(text, part)
    ensures Find(text, part, 0) == Some(|before|)
    ensures Splits(text, before, part, after) && ReplaceFirst(text, part, replacement) == before + replacement + after
  {
    var i := Find(text, part, 0).value;
    before, after := text[..i], text[i + |part|..];
  }

  lemma OccursInConcat(before: string, middle: string, after: string, part: string, i: nat)
    ensures i + |part| <= |before| && OccursAt(before + middle + after, part, i) ==> OccursAt(before, part, i)
    ensures OccursAt(before, part, i) ==> OccursAt(before + middle + after, part, i)
    ensures OccursAt(after, part, i) <==> OccursAt(before + middle + after, part, |before| + |middle| + i)
  {
    var text := before + middle + after;
    var k := |before| + |middle| + i;
    if i + |part| <= |before| {
      assert text[i..i + |part|] == before[i..i + |part|];
    }
    if i + |part| <= |after| {
      assert text[k..k + |part|] == after[i..i + |part|];
    }
  }

  /** So replacing the arm never disturbs the deny arm that was checked for. */
  lemma DenyArmStays(source: string, e: Edit, t: nat, before: string, after: string)
    requires WellFormed(e, t) && Splits(source, before, e.Arm(), after) && Contains(source, e.Removable())
    ensures Contains(before + e.Edited() + after, e.Removable())
  {
    var j := Find(source, e.Removable(), 0).value;
    assert OccursAt(source, e.Arm(), |before|);
    NeverOverlap(source, e, t, |before|, j);
    if j + |e.Removable()| <= |before| {
      OccursInConcat(before, e.Arm(), after, e.Removable(), j);
      OccursInConcat(before, e.Edited(), after, e.Removable(), j);
      assert OccursAt(before + e.Edited() + after, e.Removable(), j);
    } else {
      var k := j - |before| - |e.Arm()|;
      OccursInConcat(before, e.Arm(), after, e.Removable(), k);
      OccursInConcat(before, e.Edited(), after, e.Removable(), k);
      assert OccursAt(before + e.Edited() + after, e.Removable(), |before| + |e.Edited()| + k);
    }
  }

  /** One line less in the arm. */
  lemma EditedTexts(e: Edit)
    ensures e.Arm() == Lines(e.before) + (e.condition + "\n") + Lines(e.after) + "}"
    ensures e.Edited() == Lines(e.before) + Lines(e.after) + "}"
  {
    LinesOfConcat(e.before + [e.condition], e.after);
    LinesOfConcat(e.before, [e.condition]);
    LinesOfConcat(e.before, e.after);
    OneLine(e.condition);
  }

  lemma EditedIsShorter(e: Edit)
    ensures |e.Arm()| == |e.Edited()| + |e.condition| + 1
  {
    EditedTexts(e);
  }

  lemma EditedCounts(c: char, e: Edit)
    ensures Count(c, e.Arm()) == Count(c, e.Edited()) + Count(c, e.condition + "\n")
  {
    EditedTexts(e);
    var b, line, a := Lines(e.before), e.condition + "\n", Lines(e.after);
    CountOfConcat(c, b + line + a, "}");
    CountOfConcat(c, b + line, a);
    CountOfConcat(c, b, line);
    CountOfConcat(c, b + a, "}");
    CountOfConcat(c, b, a);
  }

  lemma HalfKeepsDenyArm(source: string, e: Edit, t: nat)
    requires WellFormed(e, t) && Contains(source, e.Arm()) && Contains(source, e.Removable())
    ensures Contains(ReplaceFirst(source, e.Arm(), e.Edited()), e.Removable())
  {
    var before, after := ReplacedSplits(source, e.Arm(), e.Edited());
    DenyArmStays(source, e, t, before, after);
  }

  lemma TwoReplacements(source: string, arm: string, edited: string, removable: string)
    returns (before: string, after: string, front: string, back: string)
    requires Contains(source, arm) && Contains(ReplaceFirst(source, arm, edited), removable)
    ensures Splits(source, before, arm, after) && Splits(before + edited + after, front, removable, back)
    ensures ReplaceFirst(ReplaceFirst(source, arm, edited), removable, "") == front + back
    ensures |front + back| == |source| - |arm| + |edited| - |removable|
  {
    before, after := ReplacedSplits(source, arm, edited);
    front, back := ReplacedSplits(before + edited + after, removable, "");
    NothingAfter(front);
  }

  /**
   The altered policy exists exactly when the arm and the deny arm are both in the repository's, and
   then it is that policy with one line taken out of the arm and the deny arm taken out.
   */
  lemma CutIsExact(source: string, e: Edit, t: nat)
    requires WellFormed(e, t)
    ensures Cut(source, e).Some? <==> Contains(source, e.Arm()) && Contains(source, e.Removable())
    ensures Cut(source, e).Some? ==>
              && |Cut(source, e).value| == |source| - |e.condition| - 1 - |e.Removable()|
              && exists before, after, front, back ::
                   && Splits(source, before, e.Arm(), after)
                   && Splits(before + e.Edited() + after, front, e.Removable(), back)
                   && Cut(source, e).value == front + back
  {
    if Contains(source, e.Arm()) && Contains(source, e.Removable()) {
      HalfKeepsDenyArm(source, e, t);
      EditedIsShorter(e);
      var before, after, front, back := TwoReplacements(source, e.Arm(), e.Edited(), e.Removable());
      assert |front + back| < |source|;
    }
  }

  // ---------------------------------------------------------------------------------------------
  // The variants are different texts
  // ---------------------------------------------------------------------------------------------

  function Count(c: char, text: string): nat {
    if |text| == 0 then 0 else Count(c, text[..|text| - 1]) + if text[|text| - 1] == c then 1 else 0
  }

  lemma {:induction false} CountOfConcat(c: char, a: string, b: string)
    ensures Count(c, a + b) == Count(c, a) + Count(c, b)
  {
    if |b| == 0 {
      assert a + b == a;
    } else {
      assert (a + b)[..|a + b| - 1] == a + b[..|b| - 1];
      CountOfConcat(c, a, b[..|b| - 1]);
    }
  }

  lemma {:induction false} CountOfAbsent(c: char, text: string)
    ensures Count(c, text) == 0 <==> c !in text
  {
    if |text| > 0 {
      var front, last := text[..|text| - 1], text[|text| - 1];
      assert text == front + [last];
      CountOfAbsent(c, front);
    }
  }

  /** A cut takes every occurrence of a character in the line and in the deny arm. */
  lemma CutCounts(c: char, source: string, e: Edit, t: nat)
    requires WellFormed(e, t) && Cut(source, e).Some?
    ensures Count(c, Cut(source, e).value) == Count(c, source) - Count(c, e.condition + "\n") - Count(c, e.Removable())
  {
    CutIsExact(source, e, t);
    var before, after, front, back :|
      && Splits(source, before, e.Arm(), after)
      && Splits(before + e.Edited() + after, front, e.Removable(), back)
      && Cut(source, e).value == front + back;
    EditedCounts(c, e);
    CountOfConcat(c, before + e.Arm(), after);
    CountOfConcat(c, before, e.Arm());
    CountOfConcat(c, before + e.Edited(), after);
    CountOfConcat(c, before, e.Edited());
    CountOfConcat(c, front + e.Removable(), back);
    CountOfConcat(c, front, e.Removable());
    CountOfConcat(c, front, back);
  }

  /** Two cuts differ when one takes a character that the other leaves alone. */
  lemma CutsDiffer(c: char, source: string, e: Edit, t: nat, f: Edit, u: nat)
    requires WellFormed(e, t) && WellFormed(f, u) && Cut(source, e).Some? && Cut(source, f).Some?
    requires c in e.Removable() && c !in f.Removable() && c !in f.condition + "\n"
    ensures Cut(source, e) != Cut(source, f)
  {
    CutCounts(c, source, e, t);
    CutCounts(c, source, f, u);
    CountOfAbsent(c, e.Removable());
    CountOfAbsent(c, f.Removable());
    CountOfAbsent(c, f.condition + "\n");
  }

  lemma ThreeLines(a: string, b: string, c: string)
    ensures |Lines([a, b, c])| == |a| + |b| + |c| + 3
    ensures forall x :: x != '\n' ==> (x in Lines([a, b, c]) <==> x in a || x in b || x in c)
  {
    assert [a, b, c][1..] == [b, c] && [b, c][1..] == [c] && [c][1..] == [];
    assert Lines([c]) == c + "\n" + "" && Lines([b, c]) == b + "\n" + Lines([c]);
  }

  lemma FourLines(a: string, b: string, c: string, d: string)
    ensures |Lines([a, b, c, d])| == |a| + |b| + |c| + |d| + 4
    ensures forall x :: x != '\n' ==> (x in Lines([a, b, c, d]) <==> x in a || x in b || x in c || x in d)
  {
    ThreeLines(b, c, d);
    assert [a, b, c, d][1..] == [b, c, d];
  }

  // --- the lines of the three edits ---

  lemma OrderReadLines()
    ensures IsLine(ALLOW_ORDER_READ)
    ensures IsLine(ORDER_READ) && '}' !in ORDER_READ && |ORDER_READ| == 29
  {
  }

  lemma TenantLines()
    ensures IsLine(IN_TENANT) && '}' !in IN_TENANT && |IN_TENANT| == 10
    ensures IsLine(NOT_IN_TENANT) && '}' !in NOT_IN_TENANT && |NOT_IN_TENANT| == 14 && NOT_IN_TENANT[13] == 't'
  {
  }

  lemma DenyTenantLine()
    ensures IsLine(DENY_TENANT) && '}' !in DENY_TENANT && |DENY_TENANT| == 62
  {
  }

  lemma DenyTenantParenthesis()
    ensures '(' in DENY_TENANT
  {
    assert "decision := deny("[16] == '(';
    assert '(' in "decision := deny(";
  }

  lemma RoleLines()
    ensures IsLine(ANY_ROLE) && |ANY_ROLE| == 21 && ANY_ROLE[0] == '\t' && ANY_ROLE[20] == ')'
    ensures IsLine(NOT_ANY_ROLE) && '}' !in NOT_ANY_ROLE && |NOT_ANY_ROLE| == 25 && NOT_ANY_ROLE[4] == ' '
  {
  }

  lemma DenyRoleLine()
    ensures IsLine(DENY_ROLE) && '}' !in DENY_ROLE && |DENY_ROLE| == 54
  {
  }

  lemma ScopeLines()
    ensures IsLine(PERMITS) && IsLine(DELEGATION) && '}' !in DELEGATION && |DELEGATION| == 17
    ensures IsLine(NOT_NEVER) && '}' !in NOT_NEVER && |NOT_NEVER| == 20
    ensures IsLine(SCOPE_GRANTED) && |SCOPE_GRANTED| == 14 && SCOPE_GRANTED[0] == '\t'
  {
  }

  lemma DenyScopeLines()
    ensures IsLine(NOT_SCOPE_GRANTED) && '}' !in NOT_SCOPE_GRANTED && |NOT_SCOPE_GRANTED| == 18 && NOT_SCOPE_GRANTED[4] == ' '
    ensures IsLine(DENY_SCOPE) && '}' !in DENY_SCOPE && |DENY_SCOPE| == 45
  {
  }

  lemma ScopeParenthesis()
    ensures '(' !in DELEGATION && '(' !in NOT_NEVER && '(' !in SCOPE_GRANTED && '(' !in NOT_SCOPE_GRANTED && '(' !in DENY_SCOPE
  {
  }

  lemma ThreeInThree(e: Edit, a: string, b: string, c: string, t: nat)
    requires e.deny == [a, b, c] && AreLines(e.ArmLines()) && AreLines(e.deny)
    requires '}' !in a && '}' !in b && '}' !in c
    requires EndApart(e.ArmLines()[|e.ArmLines()| - 1], c, t)
    ensures WellFormed(e, t) && |e.Removable()| == |a| + |b| + |c| + 6
  {
    ThreeLines(a, b, c);
  }

  lemma FourInFour(e: Edit, a: string, b: string, c: string, d: string, t: nat)
    requires e.deny == [a, b, c, d] && AreLines(e.ArmLines()) && AreLines(e.deny)
    requires '}' !in a && '}' !in b && '}' !in c && '}' !in d
    requires EndApart(e.ArmLines()[|e.ArmLines()| - 1], d, t)
    ensures WellFormed(e, t) && |e.Removable()| == |a| + |b| + |c| + |d| + 7
  {
    FourLines(a, b, c, d);
  }

  lemma TenantIsWellFormed()
    ensures WellFormed(TENANT, 1)
    ensures |TENANT.condition| == 10 && |TENANT.Removable()| == 111
  {
    OrderReadLines();
    TenantLines();
    RoleLines();
    DenyTenantLine();
    ThreeInThree(TENANT, DENY_TENANT, ORDER_READ, NOT_IN_TENANT, 1);
  }

  lemma RoleIsWellFormed()
    ensures WellFormed(ROLE, 21)
    ensures |ROLE.condition| == 21 && |ROLE.Removable()| == 125
  {
    OrderReadLines();
    TenantLines();
    RoleLines();
    DenyRoleLine();
    FourInFour(ROLE, DENY_ROLE, ORDER_READ, IN_TENANT, NOT_ANY_ROLE, 21);
  }

  lemma ScopeIsWellFormed()
    ensures WellFormed(SCOPE, 14)
    ensures |SCOPE.condition| == 14 && |SCOPE.Removable()| == 107
  {
    ScopeLines();
    DenyScopeLines();
    FourInFour(SCOPE, DENY_SCOPE, DELEGATION, NOT_NEVER, NOT_SCOPE_GRANTED, 14);
  }

  lemma ParenthesisIn(c: char, e: Edit)
    requires c != '\n' && c != '}'
    ensures c in e.Removable() <==> exists i :: 0 <= i < |e.deny| && c in e.deny[i]
  {
    AbsentFromLines(c, e.deny);
  }

  lemma TenantTakesAParenthesis()
    ensures '(' in TENANT.Removable()
  {
    DenyTenantParenthesis();
    ParenthesisIn('(', TENANT);
    assert '(' in TENANT.deny[0];
  }

  lemma ScopeTakesNone()
    ensures '(' !in SCOPE.Removable() && '(' !in SCOPE.condition + "\n"
  {
    ScopeParenthesis();
    ParenthesisIn('(', SCOPE);
  }

  // --- the five texts ---

  function Change(source: string, v: Variant): int
    requires VariantText(source, v).Some?
  {
    |VariantText(source, v).value| - |source|
  }

  function ChangeFor(v: Variant): int {
    match v
    case Tenant => -122
    case Role => -147
    case Scope => -122
    case Conflict => 80
    case Undefined => 6
  }

  lemma ChangeOf(source: string, v: Variant)
    requires VariantText(source, v).Some?
    ensures Change(source, v) == ChangeFor(v)
  {
    match v
    case Tenant => TenantIsWellFormed(); CutIsExact(source, TENANT, 1);
    case Role => RoleIsWellFormed(); CutIsExact(source, ROLE, 21);
    case Scope => ScopeIsWellFormed(); CutIsExact(source, SCOPE, 14);
    case Conflict => assert |CONFLICT_RULE| == 80;
    case Undefined => assert |MOVED_PACKAGE| == |REAL_PACKAGE| + 6;
  }

  /** Two variants are equally long; only one of them takes a parenthesis. */
  lemma TenantIsNotScope(source: string)
    requires VariantText(source, Tenant).Some? && VariantText(source, Scope).Some?
    ensures VariantText(source, Tenant) != VariantText(source, Scope)
  {
    TenantIsWellFormed();
    ScopeIsWellFormed();
    TenantTakesAParenthesis();
    ScopeTakesNone();
    CutsDiffer('(', source, TENANT, 1, SCOPE, 14);
  }

  lemma NotTheSource(source: string, v: Variant)
    requires VariantText(source, v).Some?
    ensures VariantText(source, v).value != source
  {
    ChangeOf(source, v);
  }

  /** Whatever the policy says, no two variants of it are the same text, and none is the policy itself. */
  lemma VariantsDiffer(source: string, v: Variant, w: Variant)
    requires v != w
    ensures VariantText(source, v).Some? ==>
              VariantText(source, v) != VariantText(source, w) && VariantText(source, v).value != source
  {
    if VariantText(source, v).Some? {
      NotTheSource(source, v);
      if VariantText(source, w).Some? {
        TextsDiffer(source, v, w);
      }
    }
  }

  lemma TextsDiffer(source: string, v: Variant, w: Variant)
    requires VariantText(source, v).Some? && VariantText(source, w).Some? && v != w
    ensures VariantText(source, v) != VariantText(source, w)
  {
    ChangeOf(source, v);
    ChangeOf(source, w);
    if (v == Tenant && w == Scope) || (v == Scope && w == Tenant) {
      TenantIsNotScope(source);
    }
  }

  /** The conflicting rule stands after the whole policy. */
  lemma ConflictIsAppended(source: string)
    ensures VariantText(source, Conflict).Some?
    ensures var text := VariantText(source, Conflict).value; source <= text && text[|source|..] == CONFLICT_RULE
  {
  }

  /** The package is moved at the first place that declares it, and there is no such variant of a policy that does not. */
  lemma PackageIsMovedExactly(source: string)
    ensures VariantText(source, Undefined).Some? <==> exists i :: OccursAt(source, REAL_PACKAGE, i)
    ensures VariantText(source, Undefined).Some? ==>
              exists before, after ::
                && Splits(source, before, REAL_PACKAGE, after)
                && (forall i :: OccursAt(source, REAL_PACKAGE, i) ==> |before| <= i)
                && VariantText(source, Undefined).value == before + MOVED_PACKAGE + after
  {
    match Find(source, REAL_PACKAGE, 0) {
      case Some(i) =>
        var before, after := ReplacedSplits(source, REAL_PACKAGE, MOVED_PACKAGE);
        assert Splits(source, before, REAL_PACKAGE, after);
        assert OccursAt(source, REAL_PACKAGE, i);
      case None =>
    }
  }

  // ---------------------------------------------------------------------------------------------
  // The file, the container, and time
  // ---------------------------------------------------------------------------------------------

  /** `loaded` is what OPA read at its last start: nobody but OPA sees it. */
  datatype World = World(deployed: Option<string>, written: int, running: bool, started: int, loaded: Option<string>, clock: int)

  const INITIAL := World(None, 0, false, -1, None, 0)

  /** Anyone may write or erase the file; the container starts and stops for any reason. */
  datatype Step = Write(text: string) | Erase | Start | Stop

  /** The clock never goes back; it may stand still. */
  function Take(w: World, step: Step, dt: nat): World {
    var now := w.clock + dt;
    match step
    case Write(text) => w.(deployed := Some(text), written := now, clock := now)
    case Erase => w.(deployed := None, clock := now)
    case Start => if w.running then w.(clock := now) else w.(running := true, started := now, loaded := w.deployed, clock := now)
    case Stop => w.(running := false, clock := now)
  }

  datatype Timed = Timed(step: Step, wait: nat)

  function Run(steps: seq<Timed>): World {
    if |steps| == 0 then INITIAL
    else Take(Run(steps[..|steps| - 1]), steps[|steps| - 1].step, steps[|steps| - 1].wait)
  }

  /** A file older than the last start is the one that start read. */
  predicate Honest(w: World) {
    && w.written <= w.clock
    && w.started <= w.clock
    && (w.deployed.Some? && w.started >= w.written ==> w.loaded == w.deployed)
  }

  /** A write of something new in the very instant of the last start. */
  predicate Tied(w: World, step: Step, wait: nat) {
    step.Write? && w.clock + wait == w.started && w.loaded != Some(step.text)
  }

  predicate TiedAt(steps: seq<Timed>, n: nat)
    requires n < |steps|
  {
    Tied(Run(steps[..n]), steps[n].step, steps[n].wait)
  }

  predicate Untied(steps: seq<Timed>) {
    forall n | 0 <= n < |steps| :: !TiedAt(steps, n)
  }

  lemma StepHonestExactly(w: World, step: Step, wait: nat)
    requires Honest(w)
    ensures Honest(Take(w, step, wait)) <==> !Tied(w, step, wait)
  {
  }

  lemma RunSnoc(steps: seq<Timed>, n: nat)
    requires n < |steps|
    ensures Run(steps[..n + 1]) == Take(Run(steps[..n]), steps[n].step, steps[n].wait)
  {
    assert steps[..n + 1][..n] == steps[..n];
  }

  lemma {:induction false} UntiedIsHonest(steps: seq<Timed>, n: nat)
    requires n <= |steps| && forall k :: 0 <= k < n ==> !TiedAt(steps, k)
    ensures Honest(Run(steps[..n]))
  {
    if n > 0 {
      UntiedIsHonest(steps, n - 1);
      assert !TiedAt(steps, n - 1);
      RunSnoc(steps, n - 1);
      StepHonestExactly(Run(steps[..n - 1]), steps[n - 1].step, steps[n - 1].wait);
    }
  }

  /** What OPA read is what stands in the file, wherever that file is older, exactly while no write ties with a start. */
  lemma HonestExactlyWhenUntied(steps: seq<Timed>)
    ensures (forall n :: 0 <= n <= |steps| ==> Honest(Run(steps[..n]))) <==> Untied(steps)
  {
    if Untied(steps) {
      forall n | 0 <= n <= |steps| ensures Honest(Run(steps[..n])) {
        assert forall k :: 0 <= k < n ==> !TiedAt(steps, k);
        UntiedIsHonest(steps, n);
      }
    } else {
      var n :| 0 <= n < |steps| && TiedAt(steps, n);
      RunSnoc(steps, n);
      if Honest(Run(steps[..n])) {
        StepHonestExactly(Run(steps[..n]), steps[n].step, steps[n].wait);
        assert !Honest(Run(steps[..n + 1]));
      }
    }
  }

  lemma {:induction false} RunClock(steps: seq<Timed>)
    ensures Run(steps).started <= Run(steps).clock && Run(steps).written <= Run(steps).clock
  {
    if |steps| > 0 {
      RunClock(steps[..|steps| - 1]);
    }
  }

  /** A clock that advances with every step ties nothing. */
  lemma AdvancingClockIsUntied(steps: seq<Timed>)
    requires forall n :: 0 <= n < |steps| ==> steps[n].wait > 0
    ensures Untied(steps)
  {
    forall n | 0 <= n < |steps| ensures !TiedAt(steps, n) {
      RunClock(steps[..n]);
    }
  }

  /** A step that really starts the container. */
  predicate StartsAt(steps: seq<Timed>, k: nat)
    requires k < |steps|
  {
    steps[k].step.Start? && !Run(steps[..k]).running
  }

  /** OPA holds what the file held at the last step that really started it: a start while it runs reads nothing. */
  lemma {:induction false} LastStartDecides(steps: seq<Timed>, k: nat)
    requires k < |steps| && StartsAt(steps, k) && forall j | k < j < |steps| :: !StartsAt(steps, j)
    ensures Run(steps).loaded == Run(steps[..k]).deployed && Run(steps).started == Run(steps[..k + 1]).clock
    ensures Run(steps[..k + 1]).clock == Run(steps[..k]).clock + steps[k].wait
    decreases |steps|
  {
    RunSnoc(steps, k);
    var n := |steps| - 1;
    if k < n {
      var first := steps[..n];
      assert first[..k] == steps[..k] && first[..k + 1] == steps[..k + 1];
      forall j | k < j < |first| ensures !StartsAt(first, j) {
        assert first[..j] == steps[..j] && !StartsAt(steps, j);
      }
      assert StartsAt(first, k);
      LastStartDecides(first, k);
      assert !StartsAt(steps, n);
    } else {
      assert steps[..k + 1] == steps;
    }
  }

  // ---------------------------------------------------------------------------------------------
  // The probe
  // ---------------------------------------------------------------------------------------------

  /** What a probe answers, or that it raised. */
  datatype Answer = Correct | Armed | Unknown | Absent | Raised

  predicate HasLoaded(w: World, reachable: bool) {
    reachable && w.started >= w.written
  }

  function Judge(w: World, source: string, text: Option<string>, reachable: bool): Answer {
    if w.deployed == Some(source) then (if HasLoaded(w, reachable) then Correct else Unknown)
    else if text.None? then Raised
    else if w.deployed == text then (if HasLoaded(w, reachable) then Armed else Unknown)
    else Unknown
  }

  /** `state`: the repository mount may be missing, and the runtime unreachable. */
  function Probe(w: World, source: Option<string>, v: Variant, reachable: bool): Answer {
    if w.deployed.None? then Unknown
    else if source.None? then Raised
    else Judge(w, source.value, VariantText(source.value, v), reachable)
  }

  /** The file is no newer than OPA's last start, and the runtime says when that was. */
  predicate Read(w: World, reachable: bool) {
    reachable && w.written <= w.started
  }

  /** Each answer of the probe, from the file and the two times; whatever is none of them is unknown. */
  lemma ProbesExactly(w: World, source: Option<string>, v: Variant, reachable: bool)
    ensures var answer := Probe(w, source, v, reachable);
      && (answer == Correct <==> w.deployed.Some? && w.deployed == source && Read(w, reachable))
      && (answer == Armed
          <==> && w.deployed.Some? && source.Some? && w.deployed != source
               && w.deployed == VariantText(source.value, v) && Read(w, reachable))
      && (answer == Raised
          <==> w.deployed.Some? && (source.None? || (w.deployed != source && VariantText(source.value, v).None?)))
      && answer != Absent
  {
  }

  /** An answer of correct or armed is about the text OPA read, not only about the file. */
  ghost predicate Truthful(w: World, source: Option<string>, v: Variant, reachable: bool) {
    var answer := Probe(w, source, v, reachable);
    && (answer == Correct ==> source.Some? && w.loaded == source)
    && (answer == Armed ==> source.Some? && w.loaded == VariantText(source.value, v) && w.loaded != source)
  }

  lemma HonestIsTruthful(w: World, source: Option<string>, v: Variant, reachable: bool)
    requires Honest(w)
    ensures Truthful(w, source, v, reachable)
  {
  }

  lemma DishonestLies(w: World, v: Variant)
    requires w.written <= w.clock && w.started <= w.clock && !Honest(w)
    ensures !Truthful(w, w.deployed, v, true)
  {
  }

  /**
   At every moment of a run every probe is truthful, whatever the repository's policy is, exactly when
   no write of something new shares the instant of the last start.
   */
  lemma ProbeIsTruthfulExactly(steps: seq<Timed>)
    ensures (forall n, source, v, reachable | 0 <= n <= |steps| :: Truthful(Run(steps[..n]), source, v, reachable)) <==> Untied(steps)
  {
    HonestExactlyWhenUntied(steps);
    if Untied(steps) {
      forall n, source, v, reachable | 0 <= n <= |steps| ensures Truthful(Run(steps[..n]), source, v, reachable) {
        HonestIsTruthful(Run(steps[..n]), source, v, reachable);
      }
    } else {
      var n :| 0 <= n <= |steps| && !Honest(Run(steps[..n]));
      RunClock(steps[..n]);
      DishonestLies(Run(steps[..n]), Tenant);
    }
  }

  lemma ArmedMeansDeployed(w: World, source: Option<string>, v: Variant, reachable: bool)
    requires Probe(w, source, v, reachable) == Armed
    ensures source.Some? && w.deployed.Some? && w.deployed == VariantText(source.value, v)
  {
  }

  /** At most one variant reads armed. */
  lemma AtMostOneArmed(w: World, source: Option<string>, u: Variant, v: Variant, reachable: bool)
    requires Probe(w, source, u, reachable) == Armed && Probe(w, source, v, reachable) == Armed
    ensures u == v
  {
    ArmedMeansDeployed(w, source, u, reachable);
    ArmedMeansDeployed(w, source, v, reachable);
    if u != v {
      VariantsDiffer(source.value, u, v);
    }
  }

  /** What is correct for one variant is correct for all, so none reads armed meanwhile. */
  lemma CorrectForAll(w: World, source: Option<string>, u: Variant, v: Variant, reachable: bool)
    ensures Probe(w, source, u, reachable) == Correct <==> Probe(w, source, v, reachable) == Correct
  {
  }

  /** While one variant reads armed, no other reads armed or correct. */
  lemma OnlyThatOne(w: World, source: Option<string>, u: Variant, v: Variant, reachable: bool)
    requires Probe(w, source, v, reachable) == Armed && u != v
    ensures Probe(w, source, u, reachable) !in {Armed, Correct}
  {
    if Probe(w, source, u, reachable) == Armed {
      AtMostOneArmed(w, source, u, v, reachable);
    }
    if Probe(w, source, u, reachable) == Correct {
      CorrectForAll(w, source, u, v, reachable);
    }
  }

  /** Stopping OPA changes no answer: the probe asks when it last started, not whether it runs. */
  lemma StoppedStillAnswers(w: World, source: Option<string>, v: Variant, reachable: bool, dt: nat)
    ensures Probe(Take(w, Stop, dt), source, v, reachable) == Probe(w, source, v, reachable)
  {
  }

  // ---------------------------------------------------------------------------------------------
  // Arming and restoring
  // ---------------------------------------------------------------------------------------------

  /** The proxy does as asked, refuses, or does it and still fails to say so in time. */
  datatype Request = Done | Refused | TimedOut

  class Lab {
    var world: World
    const source: Option<string>

    constructor (source: Option<string>)
      ensures this.source == source && world == INITIAL
    {
      this.source := source;
      world := INITIAL;
    }

    method Ask(step: Step, answer: Request, dt: nat) returns (raised: bool)
      requires dt > 0 && Honest(world)
      modifies this
      ensures Honest(world)
      ensures raised == (answer != Done)
      ensures world == if answer == Refused then old(world) else Take(old(world), step, dt)
    {
      if answer != Refused {
        world := Take(world, step, dt);
      }
      raised := answer != Done;
    }

    method Install(text: string, stop: Request, start: Request, dt: nat) returns (raised: bool)
      requires dt > 0 && Honest(world)
      modifies this
      ensures Honest(world)
      ensures world.deployed == Some(text)
      ensures raised == (stop != Done || start != Done)
      ensures !raised ==> world == Installed(old(world), text, dt)
    {
      world := Take(world, Write(text), dt);
      raised := Ask(Stop, stop, dt);
      if !raised {
        raised := Ask(Start, start, dt);
      }
    }

    /** `_arm_permissive_policy` */
    method Arm(v: Variant, stop: Request, start: Request, dt: nat) returns (raised: bool)
      requires dt > 0 && Honest(world)
      modifies this
      ensures Honest(world)
      ensures source.None? || VariantText(source.value, v).None? ==> raised && world == old(world)
      ensures !raised ==>
                && world.running && world.loaded == VariantText(source.value, v)
                && Probe(world, source, v, true) == Armed
                && forall u :: u != v ==> Probe(world, source, u, true) !in {Armed, Correct}
    {
      if source.None? || VariantText(source.value, v).None? {
        return true;
      }
      raised := Install(VariantText(source.value, v).value, stop, start, dt);
      if !raised {
        NotTheSource(source.value, v);
        forall u | u != v ensures Probe(world, source, u, true) !in {Armed, Correct} {
          OnlyThatOne(world, source, u, v, true);
        }
      }
    }

    /** `_restore_real_policy` */
    method Restore(stop: Request, start: Request, dt: nat) returns (raised: bool)
      requires dt > 0 && Honest(world)
      modifies this
      ensures Honest(world)
      ensures source.None? ==> raised && world == old(world)
      ensures !raised ==>
                && world.running && world.loaded == source
                && forall u :: Probe(world, source, u, true) == Correct
    {
      if source.None? {
        return true;
      }
      raised := Install(source.value, stop, start, dt);
    }
  }

  function Installed(w: World, text: string, dt: nat): World
    requires dt > 0
  {
    Take(Take(Take(w, Write(text), dt), Stop, dt), Start, dt)
  }
}
