/**
 * Dense real vectors and matrices, standing in for the numpy float arrays of
 * the plugin. A matrix is a sequence of rows; `E[r][c]` is row r, column c.
 */
module LinAlg {

  type Vector = seq<real>
  type Matrix = seq<seq<real>>

  /** `m` is an n-by-n matrix. */
  predicate IsSquare(m: Matrix, n: nat) {
    |m| == n && forall r :: 0 <= r < |m| ==> |m[r]| == n
  }

  /** `m` is symmetric about its diagonal. */
  predicate IsSymmetric(m: Matrix, n: nat)
    requires IsSquare(m, n)
  {
    forall i, j :: 0 <= i < n && 0 <= j < n ==> m[i][j] == m[j][i]
  }

  /** Every row of `m` has the length of `v`. */
  predicate RowsMatch(m: Matrix, v: Vector) {
    forall r :: 0 <= r < |m| ==> |m[r]| == |v|
  }

  function Zeros(n: nat): (v: Vector)
    ensures |v| == n
    ensures forall i :: 0 <= i < n ==> v[i] == 0.0
  {
    seq(n, _ => 0.0)
  }

  function Ones(n: nat): (v: Vector)
    ensures |v| == n
    ensures forall i :: 0 <= i < n ==> v[i] == 1.0
  {
    seq(n, _ => 1.0)
  }

  /** The r-th standard basis vector of length n. */
  function Unit(n: nat, r: nat): (v: Vector)
    requires r < n
    ensures |v| == n
    ensures v[r] == 1.0
    ensures forall i :: 0 <= i < n && i != r ==> v[i] == 0.0
  {
    seq(n, i => if i == r then 1.0 else 0.0)
  }

  /** The n-by-n zero matrix (`np.zeros((n, n))`). */
  function ZeroMatrix(n: nat): (m: Matrix)
    ensures IsSquare(m, n)
    ensures forall i, j :: 0 <= i < n && 0 <= j < n ==> m[i][j] == 0.0
  {
    seq(n, _ => Zeros(n))
  }

  function Identity(n: nat): (m: Matrix)
    ensures IsSquare(m, n)
    ensures forall r :: 0 <= r < n ==> m[r] == Unit(n, r)
  {
    seq(n, r requires 0 <= r < n => Unit(n, r))
  }

  /** Sum of the entries, accumulated from the front. */
  function Sum(v: Vector): real
  {
    if |v| == 0 then 0.0 else Sum(v[..|v| - 1]) + v[|v| - 1]
  }

  /** Inner product. */
  function Dot(u: Vector, v: Vector): real
    requires |u| == |v|
  {
    if |u| == 0 then 0.0
    else Dot(u[..|u| - 1], v[..|v| - 1]) + u[|u| - 1] * v[|v| - 1]
  }

  function Add(u: Vector, v: Vector): (w: Vector)
    requires |u| == |v|
    ensures |w| == |u|
    ensures forall i :: 0 <= i < |w| ==> w[i] == u[i] + v[i]
  {
    seq(|u|, i requires 0 <= i < |u| => u[i] + v[i])
  }

  function Scale(a: real, v: Vector): (w: Vector)
    ensures |w| == |v|
    ensures forall i :: 0 <= i < |w| ==> w[i] == a * v[i]
  {
    seq(|v|, i requires 0 <= i < |v| => a * v[i])
  }

  /** Elementwise product (numpy's `*` on two arrays). */
  function Hadamard(u: Vector, v: Vector): (w: Vector)
    requires |u| == |v|
    ensures |w| == |u|
    ensures forall i :: 0 <= i < |w| ==> w[i] == u[i] * v[i]
  {
    seq(|u|, i requires 0 <= i < |u| => u[i] * v[i])
  }

  /** Column j of `m`. */
  function Column(m: Matrix, j: nat): (c: Vector)
    requires forall r :: 0 <= r < |m| ==> j < |m[r]|
    ensures |c| == |m|
    ensures forall r :: 0 <= r < |m| ==> c[r] == m[r][j]
  {
    seq(|m|, r requires 0 <= r < |m| => m[r][j])
  }

  function Transpose(m: Matrix, n: nat): (t: Matrix)
    requires IsSquare(m, n)
    ensures IsSquare(t, n)
    ensures forall i, j :: 0 <= i < n && 0 <= j < n ==> t[i][j] == m[j][i]
  {
    seq(n, i requires 0 <= i < n => Column(m, i))
  }

  /** Matrix-vector product (`np.matmul(m, v)`): entry r is row r dotted with v. */
  function MatVec(m: Matrix, v: Vector): (w: Vector)
    requires RowsMatch(m, v)
    ensures |w| == |m|
  {
    seq(|m|, r requires 0 <= r < |m| => Dot(m[r], v))
  }

  /** Row vector times matrix: entry j is `a` dotted with column j of `m`. */
  function VecMat(a: Vector, m: Matrix, k: nat): (w: Vector)
    requires |m| == |a|
    requires forall r :: 0 <= r < |m| ==> |m[r]| == k
    ensures |w| == k
  {
    seq(k, j requires 0 <= j < k => Dot(a, Column(m, j)))
  }

  /** Rows of `m` are orthonormal: m times its transpose is the identity. */
  predicate RowsOrthonormal(m: Matrix, n: nat)
    requires IsSquare(m, n)
  {
    forall r, c :: 0 <= r < n && 0 <= c < n ==>
      Dot(m[r], m[c]) == if r == c then 1.0 else 0.0
  }

  /** Columns of `m` are orthonormal: the transpose of m times m is the identity. */
  predicate ColumnsOrthonormal(m: Matrix, n: nat)
    requires IsSquare(m, n)
  {
    forall r, c :: 0 <= r < n && 0 <= c < n ==>
      Dot(Column(m, r), Column(m, c)) == if r == c then 1.0 else 0.0
  }

  // ---------------------------------------------------------------------------
  // Sums

  /** Replacing one entry changes the sum by the difference. */
  lemma {:induction false} SumUpdate(v: Vector, i: nat, x: real)
    requires i < |v|
    ensures Sum(v[i := x]) == Sum(v) - v[i] + x
  {
    var k := |v| - 1;
    if i == k {
      assert v[i := x][..k] == v[..k];
    } else {
      assert v[i := x][..k] == v[..k][i := x];
      SumUpdate(v[..k], i, x);
    }
  }

  /** A vector of zeros and ones sums to the number of ones. */
  lemma {:induction false} SumIndicator(v: Vector, ones: set<nat>)
    requires forall k :: k in ones ==> k < |v|
    requires forall k :: 0 <= k < |v| ==> v[k] == if k in ones then 1.0 else 0.0
    ensures Sum(v) == |ones| as real
  {
    if |v| == 0 {
      assert ones == {};
    } else {
      var k := |v| - 1;
      var rest := ones - {k};
      SumIndicator(v[..k], rest);
      if k in ones {
        assert ones == rest + {k};
      } else {
        assert ones == rest;
      }
    }
  }

  // ---------------------------------------------------------------------------
  // Inner products

  lemma {:induction false} DotZeroRight(u: Vector)
    ensures Dot(u, Zeros(|u|)) == 0.0
  {
    if |u| > 0 {
      assert Zeros(|u|)[..|u| - 1] == Zeros(|u| - 1);
      DotZeroRight(u[..|u| - 1]);
    }
  }

  lemma {:induction false} DotZeroLeft(v: Vector)
    ensures Dot(Zeros(|v|), v) == 0.0
  {
    if |v| > 0 {
      assert Zeros(|v|)[..|v| - 1] == Zeros(|v| - 1);
      DotZeroLeft(v[..|v| - 1]);
    }
  }

  /** Dotting with the all-ones vector sums the entries. */
  lemma {:induction false} DotOnes(v: Vector)
    ensures Dot(v, Ones(|v|)) == Sum(v)
  {
    if |v| > 0 {
      assert Ones(|v|)[..|v| - 1] == Ones(|v| - 1);
      DotOnes(v[..|v| - 1]);
    }
  }

  /** Dotting with a standard basis vector picks out one entry. */
  lemma {:induction false} DotUnit(n: nat, r: nat, v: Vector)
    requires r < n == |v|
    ensures Dot(Unit(n, r), v) == v[r]
  {
    var k := n - 1;
    if r == k {
      assert Unit(n, r)[..k] == Zeros(k);
      DotZeroLeft(v[..k]);
    } else {
      assert Unit(n, r)[..k] == Unit(k, r);
      DotUnit(k, r, v[..k]);
    }
  }

  lemma {:induction false} DotAddLeft(p: Vector, q: Vector, v: Vector)
    requires |p| == |q| == |v|
    ensures Dot(Add(p, q), v) == Dot(p, v) + Dot(q, v)
  {
    if |v| > 0 {
      var k := |v| - 1;
      assert Add(p, q)[..k] == Add(p[..k], q[..k]);
      DotAddLeft(p[..k], q[..k], v[..k]);
    }
  }

  lemma {:induction false} DotAddRight(u: Vector, p: Vector, q: Vector)
    requires |u| == |p| == |q|
    ensures Dot(u, Add(p, q)) == Dot(u, p) + Dot(u, q)
  {
    if |u| > 0 {
      var k := |u| - 1;
      assert Add(p, q)[..k] == Add(p[..k], q[..k]);
      DotAddRight(u[..k], p[..k], q[..k]);
    }
  }

  lemma ScalePrefix(a: real, p: Vector, k: nat)
    requires k <= |p|
    ensures Scale(a, p)[..k] == Scale(a, p[..k])
  {
    forall i | 0 <= i < k
      ensures Scale(a, p)[..k][i] == Scale(a, p[..k])[i]
    {
    }
  }

  lemma {:induction false} DotScaleLeft(a: real, p: Vector, v: Vector)
    requires |p| == |v|
    ensures Dot(Scale(a, p), v) == a * Dot(p, v)
  {
    if |v| > 0 {
      var k := |v| - 1;
      ScalePrefix(a, p, k);
      DotScaleLeft(a, p[..k], v[..k]);
    }
  }

  lemma {:induction false} DotScaleRight(a: real, u: Vector, p: Vector)
    requires |u| == |p|
    ensures Dot(u, Scale(a, p)) == a * Dot(u, p)
  {
    if |u| > 0 {
      var k := |u| - 1;
      ScalePrefix(a, p, k);
      DotScaleRight(a, u[..k], p[..k]);
    }
  }

  // ---------------------------------------------------------------------------
  // Matrix-vector products

  /** Peeling off the last row of a row-vector-times-matrix product. */
  lemma VecMatLastRow(a: Vector, m: Matrix, n: nat)
    requires |m| == |a| > 0
    requires forall r :: 0 <= r < |m| ==> |m[r]| == n
    ensures VecMat(a, m, n)
         == Add(VecMat(a[..|a| - 1], m[..|a| - 1], n), Scale(a[|a| - 1], m[|a| - 1]))
  {
    var k := |a| - 1;
    forall j | 0 <= j < n
      ensures VecMat(a, m, n)[j]
           == Add(VecMat(a[..k], m[..k], n), Scale(a[k], m[k]))[j]
    {
      assert Column(m, j)[..k] == Column(m[..k], j);
    }
  }

  /** Moving a row vector across a product: a . (m v) == (a m) . v. */
  lemma {:induction false} DotMatVec(a: Vector, m: Matrix, v: Vector)
    requires |m| == |a|
    requires RowsMatch(m, v)
    ensures Dot(a, MatVec(m, v)) == Dot(VecMat(a, m, |v|), v)
  {
    var k := |a| - 1;
    if |a| == 0 {
      assert VecMat(a, m, |v|) == Zeros(|v|);
      DotZeroLeft(v);
    } else {
      var m' := m[..k];
      assert MatVec(m, v)[..k] == MatVec(m', v);
      DotMatVec(a[..k], m', v);
      VecMatLastRow(a, m, |v|);
      DotAddLeft(VecMat(a[..k], m', |v|), Scale(a[k], m[k]), v);
      DotScaleLeft(a[k], m[k], v);
    }
  }

  /** Multiplying by the identity leaves a vector unchanged. */
  lemma MatVecIdentity(v: Vector)
    ensures MatVec(Identity(|v|), v) == v
  {
    forall r | 0 <= r < |v|
      ensures MatVec(Identity(|v|), v)[r] == v[r]
    {
      DotUnit(|v|, r, v);
    }
  }

  /** The product of any matrix with the zero vector is zero. */
  lemma MatVecZero(m: Matrix, n: nat)
    requires forall r :: 0 <= r < |m| ==> |m[r]| == n
    ensures MatVec(m, Zeros(n)) == Zeros(|m|)
  {
    forall r | 0 <= r < |m|
      ensures MatVec(m, Zeros(n))[r] == 0.0
    {
      DotZeroRight(m[r]);
    }
  }

  lemma MatVecAdd(m: Matrix, u: Vector, v: Vector)
    requires |u| == |v|
    requires RowsMatch(m, u)
    ensures MatVec(m, Add(u, v)) == Add(MatVec(m, u), MatVec(m, v))
  {
    forall r | 0 <= r < |m|
      ensures MatVec(m, Add(u, v))[r] == MatVec(m, u)[r] + MatVec(m, v)[r]
    {
      DotAddRight(m[r], u, v);
    }
  }

  lemma MatVecScale(m: Matrix, a: real, v: Vector)
    requires RowsMatch(m, v)
    ensures MatVec(m, Scale(a, v)) == Scale(a, MatVec(m, v))
  {
    forall r | 0 <= r < |m|
      ensures MatVec(m, Scale(a, v))[r] == a * MatVec(m, v)[r]
    {
      DotScaleRight(a, m[r], v);
    }
  }

  /** If m m^T = I then m (m^T v) = v. */
  lemma InverseRight(m: Matrix, n: nat, v: Vector)
    requires IsSquare(m, n) && |v| == n
    requires RowsOrthonormal(m, n)
    ensures MatVec(m, MatVec(Transpose(m, n), v)) == v
  {
    var t := Transpose(m, n);
    forall r | 0 <= r < n
      ensures MatVec(m, MatVec(t, v))[r] == v[r]
    {
      DotMatVec(m[r], t, v);
      forall j | 0 <= j < n
        ensures VecMat(m[r], t, n)[j] == Unit(n, r)[j]
      {
        assert Column(t, j) == m[j];
      }
      assert VecMat(m[r], t, n) == Unit(n, r);
      DotUnit(n, r, v);
    }
  }

  /** If m^T m = I then m^T (m c) = c. */
  lemma InverseLeft(m: Matrix, n: nat, c: Vector)
    requires IsSquare(m, n) && |c| == n
    requires ColumnsOrthonormal(m, n)
    ensures MatVec(Transpose(m, n), MatVec(m, c)) == c
  {
    var t := Transpose(m, n);
    forall r | 0 <= r < n
      ensures MatVec(t, MatVec(m, c))[r] == c[r]
    {
      assert t[r] == Column(m, r);
      DotMatVec(t[r], m, c);
      forall j | 0 <= j < n
        ensures VecMat(t[r], m, n)[j] == Unit(n, r)[j]
      {
      }
      assert VecMat(t[r], m, n) == Unit(n, r);
      DotUnit(n, r, c);
    }
  }
}
