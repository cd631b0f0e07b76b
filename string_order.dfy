/** The ordering of Java's `String.compareTo`: the first differing character
    decides, and a proper prefix comes before the longer string. Both actions
    sort with it: bulk-update responses by old key, project listings by name
    and then by uuid. */
module StringOrder {

  /** `Less(a, b)` holds exactly when `a.compareTo(b) < 0`. */
  predicate Less(a: string, b: string)
    decreases |a|
  {
    if |a| == 0 then |b| > 0
    else if |b| == 0 then false
    else if a[0] != b[0] then a[0] < b[0]
    else Less(a[1..], b[1..])
  }

  /** `a.compareTo(b) <= 0`. */
  predicate LessOrEqual(a: string, b: string) {
    a == b || Less(a, b)
  }

  lemma {:induction false} LessIrreflexive(a: string)
    ensures !Less(a, a)
    decreases |a|
  {
    if |a| > 0 {
      LessIrreflexive(a[1..]);
    }
  }

  lemma {:induction false} LessAsymmetric(a: string, b: string)
    requires Less(a, b)
    ensures !Less(b, a)
    decreases |a|
  {
    if |a| > 0 && |b| > 0 && a[0] == b[0] {
      LessAsymmetric(a[1..], b[1..]);
    }
  }

  lemma {:induction false} LessTransitive(a: string, b: string, c: string)
    requires Less(a, b) && Less(b, c)
    ensures Less(a, c)
    decreases |a|
  {
    if |a| > 0 && |b| > 0 && |c| > 0 && a[0] == b[0] && b[0] == c[0] {
      LessTransitive(a[1..], b[1..], c[1..]);
    }
  }

  /** Two different strings are always ordered one way or the other. */
  lemma {:induction false} LessTotal(a: string, b: string)
    ensures a == b || Less(a, b) || Less(b, a)
    decreases |a|
  {
    if |a| > 0 && |b| > 0 && a[0] == b[0] {
      LessTotal(a[1..], b[1..]);
      if a[1..] == b[1..] {
        assert a == [a[0]] + a[1..] && b == [b[0]] + b[1..];
      }
    }
  }

  lemma LessOrEqualTransitive(a: string, b: string, c: string)
    requires LessOrEqual(a, b) && LessOrEqual(b, c)
    ensures LessOrEqual(a, c)
  {
    if a != b && b != c {
      LessTransitive(a, b, c);
    }
  }

  /** `m` is the smallest element of `s`. */
  predicate IsLeast(m: string, s: set<string>) {
    m in s && forall x :: x in s && x != m ==> Less(m, x)
  }

  lemma {:induction false} LeastExists(s: set<string>)
    requires s != {}
    ensures exists m :: IsLeast(m, s)
    decreases |s|
  {
    var x :| x in s;
    if s == {x} {
      assert IsLeast(x, s);
    } else {
      var rest := s - {x};
      LeastExists(rest);
      var m :| IsLeast(m, rest);
      LessTotal(x, m);
      if Less(x, m) {
        forall y | y in s && y != x
          ensures Less(x, y)
        {
          if y != m {
            LessTransitive(x, m, y);
          }
        }
        assert IsLeast(x, s);
      } else {
        assert IsLeast(m, s);
      }
    }
  }

  lemma LeastUnique(s: set<string>)
    ensures forall m1, m2 :: IsLeast(m1, s) && IsLeast(m2, s) ==> m1 == m2
  {
    forall m1, m2 | IsLeast(m1, s) && IsLeast(m2, s)
      ensures m1 == m2
    {
      if m1 != m2 {
        LessAsymmetric(m1, m2);
      }
    }
  }

  /** The smallest string of a non-empty finite set. */
  function Least(s: set<string>): (m: string)
    requires s != {}
    ensures IsLeast(m, s)
  {
    LeastExists(s);
    LeastUnique(s);
    var m :| IsLeast(m, s);
    m
  }

  predicate StrictlyAscending(r: seq<string>) {
    forall i, j :: 0 <= i < j < |r| ==> Less(r[i], r[j])
  }

  /** The elements of `s` in ascending `compareTo` order, each once. */
  function Ascending(s: set<string>): (r: seq<string>)
    ensures |r| == |s|
    ensures forall x :: x in r <==> x in s
    ensures StrictlyAscending(r)
    decreases |s|
  {
    if s == {} then []
    else
      var m := Least(s);
      assert |s - {m}| == |s| - 1;
      [m] + Ascending(s - {m})
  }
}
