/**
 * The bandwidth filter of the `cb_bw_update` callback: a hard cut-off on the
 * coefficient index, keeping coefficient i exactly when i <= n * b, where b
 * is the object's bandwidth fraction (a property bounded to [0, 1]).
 */
module Bandwidth {
  import opened LinAlg

  /**
   * Lines 38-41: the property's hard bounds. Blender clamps every value
   * assigned to `SMP_Bandwidth` into [0, 1] before the callback reads it.
   */
  function ClampBandwidth(b: real): (c: real)
    ensures 0.0 <= c <= 1.0
    ensures 0.0 <= b <= 1.0 ==> c == b
    ensures b < 0.0 ==> c == 0.0
    ensures b > 1.0 ==> c == 1.0
  {
    if b < 0.0 then 0.0 else if b > 1.0 then 1.0 else b
  }

  /** i <= x holds for a whole number i exactly when i <= floor(x). */
  lemma FloorCut(x: real, i: int)
    ensures (i as real) <= x <==> i <= x.Floor
  {
  }

  /**
   * Line 24: `1*(np.arange(0, n) <= n*b)`, a 0/1 weight per coefficient.
   * Coefficient i is kept exactly when it lies below `KeptCount(n, b)`.
   */
  function Mask(n: nat, b: real): (w: Vector)
    ensures |w| == n
    ensures forall i :: 0 <= i < n ==> w[i] == if i < KeptCount(n, b) then 1.0 else 0.0
  {
    seq(n, i requires 0 <= i < n => FloorCut((n as real) * b, i);
      if (i as real) <= (n as real) * b then 1.0 else 0.0)
  }

  /** The number of coefficients a bandwidth keeps: floor(n * b) + 1, clipped to [0, n]. */
  function KeptCount(n: nat, b: real): (k: nat)
    ensures k <= n
  {
    var f := ((n as real) * b).Floor + 1;
    if f < 0 then 0 else if f > n then n else f
  }

  /** k ones followed by n - k zeros. */
  function PrefixOnes(n: nat, k: nat): (w: Vector)
    requires k <= n
    ensures |w| == n
  {
    Ones(k) + Zeros(n - k)
  }

  /** Line 24: the mask is a prefix of ones followed by zeros, its length set by `KeptCount`. */
  lemma MaskIsPrefix(n: nat, b: real)
    ensures Mask(n, b) == PrefixOnes(n, KeptCount(n, b))
  {
    var w := Mask(n, b);
    var k := KeptCount(n, b);
    var p := PrefixOnes(n, k);
    var x := (n as real) * b;
    forall i | 0 <= i < n
      ensures w[i] == p[i]
    {
      assert (i as real) <= x <==> i <= x.Floor;
      if i < k {
        assert p[i] == Ones(k)[i];
      } else {
        assert p[i] == Zeros(n - k)[i - k];
      }
    }
  }

  /** Line 24: every weight is 0 or 1, and the weights never increase with the index. */
  lemma MaskMonotone(n: nat, b: real)
    ensures forall i :: 0 <= i < n ==> Mask(n, b)[i] == 0.0 || Mask(n, b)[i] == 1.0
    ensures forall i, j :: 0 <= i <= j < n ==> Mask(n, b)[j] <= Mask(n, b)[i]
  {
    var x := (n as real) * b;
    forall i, j | 0 <= i <= j < n
      ensures Mask(n, b)[j] <= Mask(n, b)[i]
    {
      assert (j as real) <= x ==> (i as real) <= x;
    }
  }

  /** Lines 24 and 39-41: within the property's bounds, coefficient 0 is always kept. */
  lemma MaskKeepsFirst(n: nat, b: real)
    requires 0.0 <= b <= 1.0 && n > 0
    ensures Mask(n, b)[0] == 1.0
    ensures 1 <= KeptCount(n, b)
  {
    assert (n as real) * b >= 0.0;
  }

  /** Line 24 at b = 1, the property's default: every coefficient is kept. */
  lemma MaskFull(n: nat)
    ensures Mask(n, 1.0) == Ones(n)
    ensures KeptCount(n, 1.0) == n
  {
  }

  /** Line 24 at b = 0: only coefficient 0 survives, so the mask is not all zeros. */
  lemma MaskEmptyBandwidth(n: nat)
    requires n > 0
    ensures Mask(n, 0.0) == Unit(n, 0)
    ensures KeptCount(n, 0.0) == 1
  {
  }
}
