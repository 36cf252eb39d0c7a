/**
 Exact real-valued vectors and square matrices, just enough to state the
 weighted blending of transforms: zero and identity matrices, entrywise
 addition and scaling, finite sums, and column orthonormality.
 Matrices are sequences of rows.
 */
module LinearAlgebra {

  type Vector = seq<real>
  type Matrix = seq<Vector>

  predicate IsVector(v: Vector, d: nat) {
    |v| == d
  }

  /** `m` is a d x d matrix. */
  predicate IsMatrix(m: Matrix, d: nat) {
    |m| == d && forall r :: 0 <= r < d ==> |m[r]| == d
  }

  function ZeroVector(d: nat): Vector {
    seq(d, _ => 0.0)
  }

  function ZeroMatrix(d: nat): Matrix {
    seq(d, _ => ZeroVector(d))
  }

  function IdentityMatrix(d: nat): Matrix {
    seq(d, r => seq(d, c => if r == c then 1.0 else 0.0))
  }

  function AddVector(a: Vector, b: Vector): Vector
    requires |a| == |b|
  {
    seq(|a|, k requires 0 <= k < |a| => a[k] + b[k])
  }

  function ScaleVector(s: real, a: Vector): Vector {
    seq(|a|, k requires 0 <= k < |a| => s * a[k])
  }

  function AddMatrix(a: Matrix, b: Matrix): Matrix
    requires |a| == |b|
    requires forall r :: 0 <= r < |a| ==> |a[r]| == |b[r]|
  {
    seq(|a|, r requires 0 <= r < |a| => AddVector(a[r], b[r]))
  }

  function ScaleMatrix(s: real, m: Matrix): Matrix {
    seq(|m|, r requires 0 <= r < |m| => ScaleVector(s, m[r]))
  }

  /** Sum of a sequence, accumulated from the front as a loop would. */
  function Sum(s: seq<real>): real
    decreases |s|
  {
    if |s| == 0 then 0.0 else Sum(s[..|s| - 1]) + s[|s| - 1]
  }

  /** Column `c` of a matrix whose rows all have more than `c` entries. */
  function Column(m: Matrix, c: nat): Vector
    requires forall r :: 0 <= r < |m| ==> c < |m[r]|
  {
    seq(|m|, r requires 0 <= r < |m| => m[r][c])
  }

  function Dot(a: Vector, b: Vector): real
    requires |a| == |b|
  {
    Sum(seq(|a|, k requires 0 <= k < |a| => a[k] * b[k]))
  }

  /** `m` is d x d and its columns are orthonormal, i.e. transpose(m) * m is the identity. */
  predicate Orthogonal(m: Matrix, d: nat) {
    && IsMatrix(m, d)
    && forall r, c :: 0 <= r < d && 0 <= c < d ==>
         Dot(Column(m, r), Column(m, c)) == (if r == c then 1.0 else 0.0)
  }

  lemma {:induction false} SumOfZeros(s: seq<real>)
    requires forall k :: 0 <= k < |s| ==> s[k] == 0.0
    ensures Sum(s) == 0.0
    decreases |s|
  {
    if |s| > 0 {
      SumOfZeros(s[..|s| - 1]);
    }
  }

  /** A sum of non-negative terms is zero exactly when every term is zero. */
  lemma {:induction false} SumOfNonNegatives(s: seq<real>)
    requires forall k :: 0 <= k < |s| ==> s[k] >= 0.0
    ensures Sum(s) >= 0.0
    ensures Sum(s) == 0.0 <==> forall k :: 0 <= k < |s| ==> s[k] == 0.0
    decreases |s|
  {
    if |s| > 0 {
      var p := s[..|s| - 1];
      SumOfNonNegatives(p);
      if Sum(s) == 0.0 {
        forall k | 0 <= k < |s|
          ensures s[k] == 0.0
        {
          if k < |s| - 1 {
            assert s[k] == p[k];
          }
        }
      } else if forall k :: 0 <= k < |s| ==> s[k] == 0.0 {
        SumOfZeros(s);
      }
    }
  }

  /** Σ (s * x_k) == s * Σ x_k */
  lemma {:induction false} SumScale(s: real, xs: seq<real>, ys: seq<real>)
    requires |xs| == |ys|
    requires forall k :: 0 <= k < |xs| ==> ys[k] == s * xs[k]
    ensures Sum(ys) == s * Sum(xs)
    decreases |xs|
  {
    if |xs| > 0 {
      SumScale(s, xs[..|xs| - 1], ys[..|ys| - 1]);
    }
  }

  /** f applied to every element of `s`, in order. */
  function Mapped<T>(f: T -> real, s: seq<T>): seq<real> {
    seq(|s|, k requires 0 <= k < |s| => f(s[k]))
  }

  /** A sum splits over concatenation. */
  lemma {:induction false} SumConcat(a: seq<real>, b: seq<real>)
    ensures Sum(a + b) == Sum(a) + Sum(b)
    decreases |b|
  {
    if |b| > 0 {
      var ab := a + b;
      assert ab[..|ab| - 1] == a + b[..|b| - 1];
      SumConcat(a, b[..|b| - 1]);
    } else {
      assert a + b == a;
    }
  }

  lemma MappedConcat<T>(f: T -> real, a: seq<T>, b: seq<T>)
    ensures Mapped(f, a + b) == Mapped(f, a) + Mapped(f, b)
  {
  }

  /** A mapped sum does not depend on the order of the elements. */
  lemma {:induction false} SumPermutation<T>(f: T -> real, s1: seq<T>, s2: seq<T>)
    requires multiset(s1) == multiset(s2)
    ensures Sum(Mapped(f, s1)) == Sum(Mapped(f, s2))
    decreases |s1|
  {
    if |s1| == 0 {
      assert |s2| == |multiset(s2)| == 0;
    } else {
      var n := |s1| - 1;
      var x := s1[n];
      assert s1 == s1[..n] + [x];
      assert x in multiset(s2);
      var i :| 0 <= i < |s2| && s2[i] == x;
      var rest := s2[..i] + s2[i + 1..];
      assert s2 == s2[..i] + [x] + s2[i + 1..];
      assert multiset(s1) == multiset(s1[..n]) + multiset{x};
      assert multiset(s2) == multiset(s2[..i]) + multiset{x} + multiset(s2[i + 1..]);
      assert multiset(rest) == multiset(s2[..i]) + multiset(s2[i + 1..]);
      assert multiset(s1[..n]) == multiset(s1) - multiset{x};
      assert multiset(rest) == multiset(s2) - multiset{x};
      SumPermutation(f, s1[..n], rest);
      MappedConcat(f, s1[..n], [x]);
      SumConcat(Mapped(f, s1[..n]), Mapped(f, [x]));
      MappedConcat(f, s2[..i] + [x], s2[i + 1..]);
      MappedConcat(f, s2[..i], [x]);
      SumConcat(Mapped(f, s2[..i]) + Mapped(f, [x]), Mapped(f, s2[i + 1..]));
      SumConcat(Mapped(f, s2[..i]), Mapped(f, [x]));
      MappedConcat(f, s2[..i], s2[i + 1..]);
      SumConcat(Mapped(f, s2[..i]), Mapped(f, s2[i + 1..]));
      assert Sum(Mapped(f, [x])) == f(x) by {
        assert Mapped(f, [x])[..0] == [];
      }
    }
  }

  /** A sequence that is zero except possibly at position `p` sums to its entry there. */
  lemma {:induction false} SumOfIndicator(n: nat, p: nat, x: real)
    ensures Sum(seq(n, k => if k == p then x else 0.0)) == if p < n then x else 0.0
  {
    if n > 0 {
      var s := seq(n, k => if k == p then x else 0.0);
      assert s[..n - 1] == seq(n - 1, k => if k == p then x else 0.0);
      SumOfIndicator(n - 1, p, x);
    }
  }

  lemma IdentityIsOrthogonal(d: nat)
    ensures Orthogonal(IdentityMatrix(d), d)
  {
    var id := IdentityMatrix(d);
    forall r, c | 0 <= r < d && 0 <= c < d
      ensures Dot(Column(id, r), Column(id, c)) == (if r == c then 1.0 else 0.0)
    {
      var a := Column(id, r);
      var b := Column(id, c);
      var x := if r == c then 1.0 else 0.0;
      assert seq(d, k requires 0 <= k < d => a[k] * b[k]) == seq(d, k => if k == r then x else 0.0);
      SumOfIndicator(d, r, x);
    }
  }

  /** Scaling by 1/w divides every entry by w. */
  lemma ScaleVectorByReciprocal(d: nat, v: Vector, w: real, target: Vector)
    requires IsVector(v, d) && IsVector(target, d) && w != 0.0
    requires forall k :: 0 <= k < d ==> target[k] == v[k] / w
    ensures ScaleVector(1.0 / w, v) == target
  {
    var lhs := ScaleVector(1.0 / w, v);
    forall k | 0 <= k < d
      ensures lhs[k] == target[k]
    {
      ReciprocalScale(w, v[k]);
    }
  }

  lemma ScaleMatrixByReciprocal(d: nat, m: Matrix, w: real, target: Matrix)
    requires IsMatrix(m, d) && IsMatrix(target, d) && w != 0.0
    requires forall r, c :: 0 <= r < d && 0 <= c < d ==> target[r][c] == m[r][c] / w
    ensures ScaleMatrix(1.0 / w, m) == target
  {
    var lhs := ScaleMatrix(1.0 / w, m);
    forall r | 0 <= r < d
      ensures lhs[r] == target[r]
    {
      ScaleVectorByReciprocal(d, m[r], w, target[r]);
    }
  }

  lemma ReciprocalScale(w: real, x: real)
    requires w != 0.0
    ensures (1.0 / w) * x == x / w
  {
  }
}
