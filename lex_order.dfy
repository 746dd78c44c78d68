/**
 * Python's ordering of `str` values: code-point lexicographic, a proper
 * prefix sorting before its extensions. This is the order `sorted()` uses
 * when the tools pick the most recent timestamp of a time series.
 */
module LexOrder {

  /** `a <= b` on Python strings. */
  predicate LexLe(a: string, b: string)
    decreases |a|
  {
    |a| == 0 || (|b| > 0 && (a[0] < b[0] || (a[0] == b[0] && LexLe(a[1..], b[1..]))))
  }

  lemma {:induction false} LexLeReflexive(a: string)
    ensures LexLe(a, a)
    decreases |a|
  {
    if |a| > 0 {
      LexLeReflexive(a[1..]);
    }
  }

  lemma {:induction false} LexLeAntisymmetric(a: string, b: string)
    requires LexLe(a, b) && LexLe(b, a)
    ensures a == b
    decreases |a|
  {
    if |a| > 0 {
      LexLeAntisymmetric(a[1..], b[1..]);
      assert a == [a[0]] + a[1..] && b == [b[0]] + b[1..];
    }
  }

  lemma {:induction false} LexLeTransitive(a: string, b: string, c: string)
    requires LexLe(a, b) && LexLe(b, c)
    ensures LexLe(a, c)
    decreases |a|
  {
    if |a| > 0 && a[0] == b[0] && b[0] == c[0] {
      LexLeTransitive(a[1..], b[1..], c[1..]);
    }
  }

  lemma {:induction false} LexLeTotal(a: string, b: string)
    ensures LexLe(a, b) || LexLe(b, a)
    decreases |a|
  {
    if |a| > 0 && |b| > 0 && a[0] == b[0] {
      LexLeTotal(a[1..], b[1..]);
    }
  }

  /** `k` is the largest member of `s` under Python's string order. */
  predicate IsGreatest(k: string, s: set<string>) {
    k in s && forall j :: j in s ==> LexLe(j, k)
  }

  /** Every finite non-empty set of strings has a greatest member. */
  lemma {:induction false} GreatestExists(s: set<string>)
    requires s != {}
    ensures exists k :: IsGreatest(k, s)
    decreases |s|
  {
    var x :| x in s;
    if s == {x} {
      LexLeReflexive(x);
      assert IsGreatest(x, s);
    } else {
      var rest := s - {x};
      GreatestExists(rest);
      var m :| IsGreatest(m, rest);
      LexLeTotal(x, m);
      if LexLe(x, m) {
        assert IsGreatest(m, s);
      } else {
        LexLeReflexive(x);
        forall j | j in s
          ensures LexLe(j, x)
        {
          if j != x {
            LexLeTransitive(j, m, x);
          }
        }
        assert IsGreatest(x, s);
      }
    }
  }

  /** At most one member of a set is greatest. */
  lemma GreatestUnique(s: set<string>)
    ensures forall k1, k2 :: IsGreatest(k1, s) && IsGreatest(k2, s) ==> k1 == k2
  {
    forall k1, k2 | IsGreatest(k1, s) && IsGreatest(k2, s)
      ensures k1 == k2
    {
      LexLeAntisymmetric(k1, k2);
    }
  }

  /** The largest key of a non-empty key set: `sorted(keys)[-1]`. */
  function Latest(s: set<string>): (k: string)
    requires s != {}
    ensures IsGreatest(k, s)
  {
    GreatestExists(s);
    GreatestUnique(s);
    var k :| IsGreatest(k, s);
    k
  }

  /** `xs` is in strictly ascending order, as `sorted()` of distinct keys is. */
  predicate StrictlyAscending(xs: seq<string>) {
    forall i, j :: 0 <= i < j < |xs| ==> LexLe(xs[i], xs[j]) && xs[i] != xs[j]
  }

  /**
   * Reference definition: the last element of any ascending listing of the
   * key set, which is what `sorted(keys)[-1]` reads, is `Latest(keys)`.
   */
  lemma LastOfAscendingIsLatest(xs: seq<string>, s: set<string>)
    requires StrictlyAscending(xs)
    requires (set x | x in xs) == s
    requires s != {}
    ensures xs[|xs| - 1] == Latest(s)
  {
    var last := xs[|xs| - 1];
    assert last in s;
    forall j | j in s
      ensures LexLe(j, last)
    {
      var i :| 0 <= i < |xs| && xs[i] == j;
      if i == |xs| - 1 {
        LexLeReflexive(last);
      }
    }
    assert IsGreatest(last, s);
    GreatestUnique(s);
  }
}
