/** Python's order on `str`, and `sorted` on a set of distinct strings. */
module Strings {

  /** By code point, a proper prefix first. */
  predicate Less(a: string, b: string) {
    if |b| == 0 then false
    else if |a| == 0 then true
    else a[0] < b[0] || (a[0] == b[0] && Less(a[1..], b[1..]))
  }

  /** Python's order of texts: by the first character that differs, and a beginning before the whole. */
  lemma {:induction false} LessExactly(a: string, b: string)
    ensures Less(a, b) <==> exists k: nat :: FirstDifference(a, b, k)
  {
    if |a| > 0 && |b| > 0 && a[0] == b[0] {
      LessExactly(a[1..], b[1..]);
      if k: nat :| FirstDifference(a[1..], b[1..], k) {
        assert a[..k + 1] == [a[0]] + a[1..][..k] && b[..k + 1] == [b[0]] + b[1..][..k];
        assert FirstDifference(a, b, k + 1);
      }
      if k: nat :| FirstDifference(a, b, k) {
        assert k > 0;
        assert a[1..][..k - 1] == a[..k][1..] && b[1..][..k - 1] == b[..k][1..];
        assert FirstDifference(a[1..], b[1..], k - 1);
      }
    } else if Less(a, b) {
      assert FirstDifference(a, b, 0);
    }
  }

  /** Alike up to `k`, where the first ends or has the smaller character. */
  predicate FirstDifference(a: string, b: string, k: nat) {
    k <= |a| && k < |b| && a[..k] == b[..k] && (k < |a| ==> a[k] < b[k])
  }

  lemma {:induction false} LessTotal(a: string, b: string)
    ensures Less(a, b) || a == b || Less(b, a)
  {
    if |a| != 0 && |b| != 0 && a[0] == b[0] {
      LessTotal(a[1..], b[1..]);
      assert a == [a[0]] + a[1..] && b == [b[0]] + b[1..];
    }
  }

  lemma {:induction false} LessIrreflexive(a: string)
    ensures !Less(a, a)
  {
    if |a| != 0 {
      LessIrreflexive(a[1..]);
    }
  }

  lemma {:induction false} LessTransitive(a: string, b: string, c: string)
    requires Less(a, b) && Less(b, c)
    ensures Less(a, c)
  {
    if |a| != 0 && a[0] == b[0] == c[0] {
      LessTransitive(a[1..], b[1..], c[1..]);
    }
  }

  predicate StrictlySorted(names: seq<string>) {
    forall i, j :: 0 <= i < j < |names| ==> Less(names[i], names[j])
  }

  function Elements(names: seq<string>): set<string> {
    set name | name in names
  }

  /** Insertion into a sorted sequence that does not hold the name yet. */
  function Insert(name: string, names: seq<string>): (r: seq<string>)
    requires StrictlySorted(names) && name !in names
    ensures StrictlySorted(r) && Elements(r) == Elements(names) + {name}
    ensures |r| == |names| + 1
  {
    if |names| == 0 then [name]
    else if Less(name, names[0]) then
      assert forall j :: 0 < j < |names| ==> Less(name, names[j]) by {
        forall j | 0 < j < |names| ensures Less(name, names[j]) {
          LessTransitive(name, names[0], names[j]);
        }
      }
      [name] + names
    else
      LessTotal(name, names[0]);
      var rest := Insert(name, names[1..]);
      assert forall j :: 0 <= j < |rest| ==> Less(names[0], rest[j]) by {
        forall j | 0 <= j < |rest| ensures Less(names[0], rest[j]) {
          assert rest[j] in Elements(rest);
        }
      }
      assert names == [names[0]] + names[1..];
      assert forall n :: n in Elements([names[0]] + rest) <==> n == names[0] || n in Elements(rest);
      [names[0]] + rest
  }

  lemma {:induction false} NoRepeats(a: seq<string>)
    requires StrictlySorted(a)
    ensures |Elements(a)| == |a|
  {
    if |a| == 0 {
      assert Elements(a) == {};
    } else {
      SortedTail(a);
      NoRepeats(a[1..]);
      assert a[0] in Elements(a);
    }
  }

  /** Two strictly sorted sequences of the same names are the same sequence. */
  lemma {:induction false} SortedUnique(a: seq<string>, b: seq<string>)
    requires StrictlySorted(a) && StrictlySorted(b) && Elements(a) == Elements(b)
    ensures a == b
  {
    NoRepeats(a);
    NoRepeats(b);
    if |a| != 0 {
      assert a[0] in Elements(b);
      assert a[0] in Elements(b) && b[0] in Elements(a);
      if a[0] != b[0] {
        LessTransitive(a[0], b[0], a[0]);
        LessIrreflexive(a[0]);
      }
      assert Elements(a[1..]) == Elements(a) - {a[0]} by { SortedTail(a); }
      assert Elements(b[1..]) == Elements(b) - {b[0]} by { SortedTail(b); }
      SortedUnique(a[1..], b[1..]);
      assert a == [a[0]] + a[1..] && b == [b[0]] + b[1..];
    }
  }

  lemma SortedTail(a: seq<string>)
    requires StrictlySorted(a) && |a| > 0
    ensures Elements(a[1..]) == Elements(a) - {a[0]}
  {
    LessIrreflexive(a[0]);
    assert a == [a[0]] + a[1..];
    forall n | n in a[1..] ensures n != a[0] {
      var i :| 0 <= i < |a[1..]| && a[1..][i] == n;
      assert a[i + 1] == n;
    }
  }

  predicate IsLeast(least: string, names: set<string>) {
    least in names && forall n :: n in names && n != least ==> Less(least, n)
  }

  lemma {:induction false} LeastExists(names: set<string>)
    requires names != {}
    ensures exists least :: IsLeast(least, names)
    decreases |names|
  {
    var some :| some in names;
    if names == {some} {
      assert IsLeast(some, names);
    } else {
      LeastExists(names - {some});
      var least :| IsLeast(least, names - {some});
      LessTotal(some, least);
      if Less(some, least) {
        forall n | n in names && n != some ensures Less(some, n) {
          if n != least { LessTransitive(some, least, n); }
        }
        assert IsLeast(some, names);
      } else {
        assert IsLeast(least, names);
      }
    }
  }

  lemma LeastIsUnique(a: string, b: string, names: set<string>)
    requires IsLeast(a, names) && IsLeast(b, names)
    ensures a == b
  {
    if a != b {
      LessTransitive(a, b, a);
      LessIrreflexive(a);
    }
  }

  function Least(names: set<string>): (r: string)
    requires names != {}
    ensures IsLeast(r, names)
  {
    LeastExists(names);
    assert forall a, b :: IsLeast(a, names) && IsLeast(b, names) ==> a == b by {
      forall a, b | IsLeast(a, names) && IsLeast(b, names) ensures a == b { LeastIsUnique(a, b, names); }
    }
    var least :| IsLeast(least, names);
    least
  }

  lemma LeastFirst(least: string, rest: seq<string>, names: set<string>)
    requires IsLeast(least, names) && StrictlySorted(rest) && Elements(rest) == names - {least}
    ensures StrictlySorted([least] + rest) && Elements([least] + rest) == names
  {
    assert forall j :: 0 <= j < |rest| ==> rest[j] in Elements(rest);
    assert Elements([least] + rest) == {least} + Elements(rest);
  }

  /** `sorted` on a set of names. */
  function Sorted(names: set<string>): (r: seq<string>)
    ensures StrictlySorted(r) && Elements(r) == names
    decreases |names|
  {
    if names == {} then []
    else
      var least := Least(names);
      LeastFirst(least, Sorted(names - {least}), names);
      [least] + Sorted(names - {least})
  }
}
