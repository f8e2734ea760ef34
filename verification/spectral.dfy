/**
 * Projection of a coordinate signal onto the eigenbasis E (lines 133-135 of
 * `SMP_InitObject`) and the filtered reconstruction of `SMP_Reconstruct`
 * (lines 181-183). E is the eigensolver's output: its columns are the
 * eigenvectors; nothing here assumes they are sorted or orthonormal unless a
 * lemma says so.
 */
module Spectral {
  import opened LinAlg

  /** Lines 133-135: `np.matmul(E.transpose(), X)`; coefficient i is eigenvector i dotted with X. */
  function Project(e: Matrix, n: nat, x: Vector): (c: Vector)
    requires IsSquare(e, n) && |x| == n
    ensures |c| == n
    ensures forall i :: 0 <= i < n ==> c[i] == Dot(Column(e, i), x)
  {
    MatVec(Transpose(e, n), x)
  }

  /**
   * Lines 181-183, one axis: `np.matmul(E, c * w)`. Vertex k is row k of E
   * dotted with the filtered coefficients.
   */
  function ReconstructAxis(e: Matrix, n: nat, c: Vector, w: Vector): (out: Vector)
    requires IsSquare(e, n) && |c| == n && |w| == n
    ensures |out| == n
    ensures forall k :: 0 <= k < n ==> out[k] == Dot(e[k], Hadamard(c, w))
  {
    MatVec(e, Hadamard(c, w))
  }

  /** An all-zero filter collapses the axis to zero, whatever the basis and coefficients. */
  lemma ReconstructZeroFilter(e: Matrix, n: nat, c: Vector)
    requires IsSquare(e, n) && |c| == n
    ensures ReconstructAxis(e, n, c, Zeros(n)) == Zeros(n)
  {
    assert Hadamard(c, Zeros(n)) == Zeros(n);
    MatVecZero(e, n);
  }

  /** An all-ones filter leaves the coefficients untouched: the output is E c. */
  lemma ReconstructOnesFilter(e: Matrix, n: nat, c: Vector)
    requires IsSquare(e, n) && |c| == n
    ensures ReconstructAxis(e, n, c, Ones(n)) == MatVec(e, c)
  {
    assert Hadamard(c, Ones(n)) == c;
  }

  /** Reconstruction is linear in the coefficients. */
  lemma ReconstructLinear(e: Matrix, n: nat, c: Vector, d: Vector, a: real, w: Vector)
    requires IsSquare(e, n) && |c| == n && |d| == n && |w| == n
    ensures ReconstructAxis(e, n, Add(c, d), w)
         == Add(ReconstructAxis(e, n, c, w), ReconstructAxis(e, n, d, w))
    ensures ReconstructAxis(e, n, Scale(a, c), w) == Scale(a, ReconstructAxis(e, n, c, w))
  {
    forall i | 0 <= i < n
      ensures Hadamard(Add(c, d), w)[i] == Add(Hadamard(c, w), Hadamard(d, w))[i]
      ensures Hadamard(Scale(a, c), w)[i] == Scale(a, Hadamard(c, w))[i]
    {
      assert (c[i] + d[i]) * w[i] == c[i] * w[i] + d[i] * w[i];
      assert (a * c[i]) * w[i] == a * (c[i] * w[i]);
    }
    assert Hadamard(Add(c, d), w) == Add(Hadamard(c, w), Hadamard(d, w));
    MatVecAdd(e, Hadamard(c, w), Hadamard(d, w));
    assert Hadamard(Scale(a, c), w) == Scale(a, Hadamard(c, w));
    MatVecScale(e, a, Hadamard(c, w));
  }

  /** Projection is linear in the signal. */
  lemma ProjectLinear(e: Matrix, n: nat, x: Vector, y: Vector, a: real)
    requires IsSquare(e, n) && |x| == n && |y| == n
    ensures Project(e, n, Add(x, y)) == Add(Project(e, n, x), Project(e, n, y))
    ensures Project(e, n, Scale(a, x)) == Scale(a, Project(e, n, x))
  {
    MatVecAdd(Transpose(e, n), x, y);
    MatVecScale(Transpose(e, n), a, x);
  }

  /** In the standard basis the coefficients are the signal itself. */
  lemma ProjectIdentity(n: nat, x: Vector)
    requires |x| == n
    ensures Project(Identity(n), n, x) == x
  {
    var id := Identity(n);
    var t := Transpose(id, n);
    forall i | 0 <= i < n
      ensures t[i] == id[i]
    {
      forall j | 0 <= j < n
        ensures t[i][j] == id[i][j]
      {
        assert t[i][j] == id[j][i];
      }
    }
    assert t == id;
    MatVecIdentity(x);
  }

  /**
   * Lines 133-135 and 181: with an all-ones filter, reconstruction gives back
   * E (E^T x), which is x itself when E E^T = I. The eigensolver does not
   * promise that, so it is a precondition here.
   */
  lemma RoundTrip(e: Matrix, n: nat, x: Vector)
    requires IsSquare(e, n) && |x| == n
    requires RowsOrthonormal(e, n)
    ensures ReconstructAxis(e, n, Project(e, n, x), Ones(n)) == x
  {
    ReconstructOnesFilter(e, n, Project(e, n, x));
    InverseRight(e, n, x);
  }

  /**
   * Lines 181-183: with orthonormal eigenvectors the filter acts coefficient
   * by coefficient: projecting the reconstruction gives back c * w.
   */
  lemma FilterIsDiagonal(e: Matrix, n: nat, c: Vector, w: Vector)
    requires IsSquare(e, n) && |c| == n && |w| == n
    requires ColumnsOrthonormal(e, n)
    ensures Project(e, n, ReconstructAxis(e, n, c, w)) == Hadamard(c, w)
  {
    InverseLeft(e, n, Hadamard(c, w));
  }
}
