/** Sequence helpers shared by the dashboard, the weight allocators and the results view. */
module Collections {

  /** A value, or JavaScript's `undefined`. */
  datatype Option<T> = None | Some(value: T)

  /** No element occurs twice. */
  predicate Distinct<T(==)>(s: seq<T>) {
    forall i, j :: 0 <= i < j < |s| ==> s[i] != s[j]
  }

  /** Left-to-right sum, in the order `reduce((sum, w) => sum + w, 0)` adds (over the reals). */
  function Sum(s: seq<real>): real {
    if s == [] then 0.0 else Sum(s[..|s| - 1]) + s[|s| - 1]
  }

  lemma SumAppend(s: seq<real>, x: real)
    ensures Sum(s + [x]) == Sum(s) + x
  {
    assert (s + [x])[..|s|] == s;
  }

  lemma {:induction false} SumConcat(a: seq<real>, b: seq<real>)
    ensures Sum(a + b) == Sum(a) + Sum(b)
    decreases |b|
  {
    if b == [] {
      assert a + b == a;
    } else {
      var b' := b[..|b| - 1];
      assert a + b == (a + b') + [b[|b| - 1]];
      SumAppend(a + b', b[|b| - 1]);
      SumConcat(a, b');
      SumAppend(b', b[|b| - 1]);
      assert b == b' + [b[|b| - 1]];
    }
  }

  /** A sequence of `n` copies of `x`. */
  function Repeat(x: real, n: nat): (r: seq<real>)
    ensures |r| == n && forall i :: 0 <= i < n ==> r[i] == x
  {
    seq(n, _ => x)
  }

  lemma {:induction false} SumRepeat(x: real, n: nat)
    ensures Sum(Repeat(x, n)) == n as real * x
  {
    if n > 0 {
      assert Repeat(x, n)[..n - 1] == Repeat(x, n - 1);
      SumRepeat(x, n - 1);
    }
  }

  /** Every element divided by `t`. */
  function DivideAll(s: seq<real>, t: real): (r: seq<real>)
    requires t != 0.0
    ensures |r| == |s| && forall i :: 0 <= i < |s| ==> r[i] == s[i] / t
  {
    seq(|s|, i requires 0 <= i < |s| => s[i] / t)
  }

  lemma {:induction false} SumDivideAll(s: seq<real>, t: real)
    requires t != 0.0
    ensures Sum(DivideAll(s, t)) == Sum(s) / t
  {
    if s != [] {
      var s', last := s[..|s| - 1], s[|s| - 1];
      var d := DivideAll(s, t);
      assert d[..|s| - 1] == DivideAll(s', t);
      assert Sum(d) == Sum(DivideAll(s', t)) + last / t;
      SumDivideAll(s', t);
      DivideAdd(Sum(s'), last, t);
    }
  }

  lemma DivideAdd(a: real, b: real, t: real)
    requires t != 0.0
    ensures a / t + b / t == (a + b) / t
  {
  }

  /** Every element multiplied by `c`. */
  function MultiplyAll(s: seq<real>, c: real): (r: seq<real>)
    ensures |r| == |s| && forall i :: 0 <= i < |s| ==> r[i] == s[i] * c
  {
    seq(|s|, i requires 0 <= i < |s| => s[i] * c)
  }

  lemma {:induction false} SumMultiplyAll(s: seq<real>, c: real)
    ensures Sum(MultiplyAll(s, c)) == Sum(s) * c
  {
    if s != [] {
      var s' := s[..|s| - 1];
      forall i | 0 <= i < |s'| ensures MultiplyAll(s, c)[..|s| - 1][i] == MultiplyAll(s', c)[i] {
        assert s[i] == s'[i];
      }
      assert MultiplyAll(s, c)[..|s| - 1] == MultiplyAll(s', c);
      SumMultiplyAll(s', c);
    }
  }

  /** A sum of non-negative terms bounds each of them. */
  lemma {:induction false} SumBoundsTerms(s: seq<real>)
    requires forall i :: 0 <= i < |s| ==> s[i] >= 0.0
    ensures Sum(s) >= 0.0
    ensures forall i :: 0 <= i < |s| ==> s[i] <= Sum(s)
  {
    if s != [] {
      SumBoundsTerms(s[..|s| - 1]);
    }
  }

  /** The elements of `s` other than `x`, in their original order: `s.filter(t => t !== x)`. */
  function Without<T(==)>(s: seq<T>, x: T): (r: seq<T>)
    ensures x !in r
    ensures |r| <= |s|
  {
    if s == [] then [] else (if s[0] == x then [] else [s[0]]) + Without(s[1..], x)
  }

  /** Exactly the elements other than `x` survive. */
  lemma {:induction false} WithoutMembers<T>(s: seq<T>, x: T, y: T)
    ensures y in Without(s, x) <==> y in s && y != x
  {
    if s != [] {
      WithoutMembers(s[1..], x, y);
      assert s == [s[0]] + s[1..];
    }
  }

  /** Filtering distributes over concatenation, so the survivors keep their relative order. */
  lemma {:induction false} WithoutConcat<T>(a: seq<T>, b: seq<T>, x: T)
    ensures Without(a + b, x) == Without(a, x) + Without(b, x)
  {
    if a == [] {
      assert a + b == b;
    } else {
      assert (a + b)[1..] == a[1..] + b;
      WithoutConcat(a[1..], b, x);
    }
  }

  /** Removing a value that is absent changes nothing. */
  lemma {:induction false} WithoutAbsent<T>(s: seq<T>, x: T)
    requires x !in s
    ensures Without(s, x) == s
  {
    if s != [] {
      WithoutAbsent(s[1..], x);
    }
  }

  lemma WithoutIdempotent<T>(s: seq<T>, x: T)
    ensures Without(Without(s, x), x) == Without(s, x)
  {
    WithoutAbsent(Without(s, x), x);
  }

  lemma {:induction false} WithoutKeepsDistinct<T>(s: seq<T>, x: T)
    requires Distinct(s)
    ensures Distinct(Without(s, x))
  {
    if s != [] {
      assert Distinct(s[1..]) by {
        forall i, j | 0 <= i < j < |s[1..]| ensures s[1..][i] != s[1..][j] {
          assert s[1..][i] == s[i + 1] && s[1..][j] == s[j + 1];
        }
      }
      WithoutKeepsDistinct(s[1..], x);
      assert s[0] !in s[1..];
      WithoutMembers(s[1..], x, s[0]);
    }
  }

  /** In a list without repeats, removing the element at `i` splices it out. */
  lemma {:induction false} WithoutDistinctAt<T>(s: seq<T>, i: nat)
    requires Distinct(s) && i < |s|
    ensures Without(s, s[i]) == s[..i] + s[i + 1..]
  {
    var rest := s[1..];
    assert Distinct(rest) by {
      forall a, b | 0 <= a < b < |rest| ensures rest[a] != rest[b] {
        assert rest[a] == s[a + 1] && rest[b] == s[b + 1];
      }
    }
    if i == 0 {
      assert s[0] !in rest;
      WithoutAbsent(rest, s[0]);
    } else {
      assert s[0] != s[i];
      assert rest[i - 1] == s[i];
      WithoutDistinctAt(rest, i - 1);
      assert rest[..i - 1] + rest[i..] == s[1..i] + s[i + 1..];
      assert s[..i] == [s[0]] + s[1..i];
    }
  }

  /** `s.slice(0, end)`: a negative end counts back from the end of `s`; the result is clamped to `s`. */
  function Prefix<T>(s: seq<T>, end: int): (r: seq<T>)
    ensures |r| == if end < 0 then (if |s| + end < 0 then 0 else |s| + end) else (if end < |s| then end else |s|)
    ensures r == s[..|r|]
  {
    var k := if end < 0 then (if |s| + end < 0 then 0 else |s| + end) else (if end < |s| then end else |s|);
    s[..k]
  }

  lemma PrefixKeepsDistinct<T>(s: seq<T>, end: int)
    requires Distinct(s)
    ensures Distinct(Prefix(s, end))
  {
  }
}
