/** Orderings the code relies on: Python's string comparison (by code point, a proper prefix
    first), and the ascending enumeration of a set that `sorted(...)` and `ORDER BY ... ASC`
    produce. */
module Order {

  /** `a <= b` on Python strings. */
  predicate LexLe(a: string, b: string)
    decreases |a|
  {
    a == [] || (b != [] && (a[0] < b[0] || (a[0] == b[0] && LexLe(a[1..], b[1..]))))
  }

  predicate LexLt(a: string, b: string) {
    LexLe(a, b) && a != b
  }

  lemma {:induction false} LexLeTotal(a: string, b: string)
    ensures LexLe(a, b) || LexLe(b, a)
    decreases |a|
  {
    if a != [] && b != [] && a[0] == b[0] {
      LexLeTotal(a[1..], b[1..]);
    }
  }

  lemma {:induction false} LexLeAntisymmetric(a: string, b: string)
    requires LexLe(a, b) && LexLe(b, a)
    ensures a == b
    decreases |a|
  {
    if a != [] {
      LexLeAntisymmetric(a[1..], b[1..]);
      assert a == [a[0]] + a[1..] && b == [b[0]] + b[1..];
    }
  }

  lemma {:induction false} LexLeTransitive(a: string, b: string, c: string)
    requires LexLe(a, b) && LexLe(b, c)
    ensures LexLe(a, c)
    decreases |a|
  {
    if a != [] && a[0] == b[0] && b[0] == c[0] {
      LexLeTransitive(a[1..], b[1..], c[1..]);
    }
  }

  /** Some element of a non-empty set. */
  lemma Member<T>(s: set<T>) returns (x: T)
    requires s != {}
    ensures x in s
  {
    x :| x in s;
  }

  /** Every finite non-empty set of strings has a least element. */
  lemma {:induction false} LeastStringOf(s: set<string>) returns (m: string)
    requires s != {}
    ensures m in s && forall x | x in s :: LexLe(m, x)
    decreases |s|
  {
    var x := Member(s);
    var rest := s - {x};
    if rest == {} {
      m := x;
      forall y | y in s ensures LexLe(m, y) {
        assert y !in rest;
        LexLeTotal(x, y);
      }
    } else {
      var r := LeastStringOf(rest);
      LexLeTotal(r, x);
      if LexLe(r, x) {
        m := r;
        forall y | y in s ensures LexLe(m, y) {
          if y != x { assert y in rest; }
        }
      } else {
        m := x;
        forall y | y in s ensures LexLe(m, y) {
          if y != x {
            assert y in rest;
            LexLeTransitive(x, r, y);
          } else {
            LexLeTotal(x, y);
          }
        }
      }
    }
  }

  lemma HasLeastString(s: set<string>)
    requires s != {}
    ensures exists m | m in s :: forall x | x in s :: LexLe(m, x)
  {
    var m := LeastStringOf(s);
  }

  function LeastString(s: set<string>): (m: string)
    requires s != {}
    ensures m in s && forall x | x in s :: LexLe(m, x)
  {
    HasLeastString(s);
    var m :| m in s && forall x | x in s :: LexLe(m, x);
    assert forall m' | m' in s && (forall x | x in s :: LexLe(m', x)) :: m' == m by {
      forall m' | m' in s && (forall x | x in s :: LexLe(m', x)) ensures m' == m {
        LexLeAntisymmetric(m, m');
      }
    }
    m
  }

  /** `sorted(s)` for a set of strings: every element once, in strictly ascending order. */
  function SortedStrings(s: set<string>): (r: seq<string>)
    ensures |r| == |s|
    ensures forall x :: x in r <==> x in s
    ensures forall i, j | 0 <= i < j < |r| :: LexLt(r[i], r[j])
    decreases |s|
  {
    if s == {} then []
    else
      var m := LeastString(s);
      var rest := SortedStrings(s - {m});
      assert forall j | 0 <= j < |rest| :: LexLt(m, rest[j]) by {
        forall j | 0 <= j < |rest| ensures LexLt(m, rest[j]) {
          assert rest[j] in s - {m};
        }
      }
      [m] + rest
  }

  predicate StrictlyAscending(r: seq<int>) {
    forall i, j | 0 <= i < j < |r| :: r[i] < r[j]
  }

  /** A least element of a finite non-empty set of integers, found by removing one element
      at a time. */
  lemma {:induction false} LeastOf(s: set<int>) returns (m: int)
    requires s != {}
    ensures m in s && forall x | x in s :: m <= x
    decreases |s|
  {
    var x := Member(s);
    var rest := s - {x};
    if rest == {} {
      m := x;
      forall y | y in s ensures m <= y {
        assert y !in rest;
      }
    } else {
      var r := LeastOf(rest);
      m := if r <= x then r else x;
      forall y | y in s ensures m <= y {
        if y != x { assert y in rest; }
      }
    }
  }

  /** Every finite non-empty set of integers has a least element. */
  lemma HasLeastInt(s: set<int>)
    requires s != {}
    ensures exists m | m in s :: forall x | x in s :: m <= x
  {
    var m := LeastOf(s);
  }

  function LeastInt(s: set<int>): (m: int)
    requires s != {}
    ensures m in s && forall x | x in s :: m <= x
  {
    HasLeastInt(s);
    var m :| m in s && forall x | x in s :: m <= x;
    m
  }

  /** The elements of an integer set in ascending order, each once. */
  function SortedInts(s: set<int>): (r: seq<int>)
    ensures |r| == |s|
    ensures forall x :: x in r <==> x in s
    ensures StrictlyAscending(r)
    decreases |s|
  {
    if s == {} then []
    else
      var m := LeastInt(s);
      var rest := SortedInts(s - {m});
      assert forall j | 0 <= j < |rest| :: m < rest[j] by {
        forall j | 0 <= j < |rest| ensures m < rest[j] {
          assert rest[j] in s - {m};
        }
      }
      [m] + rest
  }

  /** The largest element, via the ascending enumeration. */
  function GreatestInt(s: set<int>): (m: int)
    requires s != {}
    ensures m in s && forall x | x in s :: x <= m
  {
    var r := SortedInts(s);
    assert r[|r| - 1] in s;
    assert forall x | x in s :: x <= r[|r| - 1] by {
      forall x | x in s ensures x <= r[|r| - 1] {
        var i :| 0 <= i < |r| && r[i] == x;
      }
    }
    r[|r| - 1]
  }
}
