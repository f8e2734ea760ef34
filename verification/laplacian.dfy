/**
 * The graph Laplacian that `SMP_InitObject` builds from the mesh's edge list.
 *
 * Starting from the n-by-n zero matrix, every edge writes its weight into
 * both [a][b] and [b][a] (a later write to the same cell overwrites an
 * earlier one); then every diagonal entry is set to minus the sum of its
 * column, the column sums being taken once, before any diagonal write. The
 * sign convention is therefore +weight off the diagonal and -degree on it.
 */
module LaplacianBuilder {
  import opened LinAlg
  import opened Wrappers

  /** A mesh edge between the vertex indices `v0` and `v1`. */
  datatype Edge = Edge(v0: nat, v1: nat)

  /** Edge `e` connects i and j, in either direction. */
  predicate Joins(e: Edge, i: nat, j: nat) {
    (e.v0 == i && e.v1 == j) || (e.v0 == j && e.v1 == i)
  }

  /** Every edge endpoint is a vertex index below n. */
  predicate EdgesIn(edges: seq<Edge>, n: nat) {
    forall k :: 0 <= k < |edges| ==> edges[k].v0 < n && edges[k].v1 < n
  }

  /** No edge starts and ends at the same vertex. */
  predicate NoSelfLoops(edges: seq<Edge>) {
    forall k :: 0 <= k < |edges| ==> edges[k].v0 != edges[k].v1
  }

  /** Some edge of the list connects i and j. */
  predicate Adjacent(edges: seq<Edge>, i: nat, j: nat) {
    exists k :: 0 <= k < |edges| && Joins(edges[k], i, j)
  }

  /** The distinct vertices other than i that some edge connects to i. */
  function Neighbours(edges: seq<Edge>, n: nat, i: nat): set<nat> {
    set j: nat | j < n && j != i && Adjacent(edges, i, j)
  }

  /** The production weight policy: every edge weighs 1. */
  function UniformWeights(edges: seq<Edge>): (w: seq<real>)
    ensures |w| == |edges|
    ensures forall k :: 0 <= k < |w| ==> w[k] == 1.0
  {
    Ones(|edges|)
  }

  /** Index of the last edge that connects i and j: the one whose write survives. */
  function LastJoin(edges: seq<Edge>, i: nat, j: nat): (r: Option<nat>)
    ensures r.None? <==> !Adjacent(edges, i, j)
    ensures r.Some? ==> r.value < |edges| && Joins(edges[r.value], i, j)
    ensures r.Some? ==> forall k :: r.value < k < |edges| ==> !Joins(edges[k], i, j)
    decreases |edges|
  {
    if |edges| == 0 then None
    else if Joins(edges[|edges| - 1], i, j) then Some(|edges| - 1)
    else
      var r := LastJoin(edges[..|edges| - 1], i, j);
      assert Adjacent(edges, i, j) ==> Adjacent(edges[..|edges| - 1], i, j) by {
        if Adjacent(edges, i, j) {
          var k :| 0 <= k < |edges| && Joins(edges[k], i, j);
          assert edges[..|edges| - 1][k] == edges[k];
        }
      }
      r
  }

  /** The value the edge loop leaves in cell [i][j]: the last connecting edge's weight, or 0. */
  function EdgeEntry(edges: seq<Edge>, w: seq<real>, i: nat, j: nat): real
    requires |w| == |edges|
  {
    match LastJoin(edges, i, j)
    case None => 0.0
    case Some(k) => w[k]
  }

  /** Lines 120-121: one edge writes its weight into [a][b] and then into [b][a]. */
  function WriteEdge(m: Matrix, n: nat, e: Edge, w: real): (r: Matrix)
    requires IsSquare(m, n) && e.v0 < n && e.v1 < n
    ensures IsSquare(r, n)
    ensures forall i, j :: 0 <= i < n && 0 <= j < n ==>
      r[i][j] == if Joins(e, i, j) then w else m[i][j]
  {
    var m1 := m[e.v0 := m[e.v0][e.v1 := w]];
    m1[e.v1 := m1[e.v1][e.v0 := w]]
  }

  /**
   * Lines 115-121: the zero matrix after the edge loop, edges written in list
   * order. Every edge writes both [a][b] and [b][a], so the result is symmetric.
   */
  function FillEdges(n: nat, edges: seq<Edge>, w: seq<real>): (m: Matrix)
    requires |w| == |edges| && EdgesIn(edges, n)
    ensures IsSquare(m, n) && IsSymmetric(m, n)
    decreases |edges|
  {
    if |edges| == 0 then ZeroMatrix(n)
    else
      var k := |edges| - 1;
      WriteEdge(FillEdges(n, edges[..k], w[..k]), n, edges[k], w[k])
  }

  /**
   * Lines 115-121: after the edge loop each cell holds the weight of the last
   * edge connecting its row and column, or 0 when no edge does.
   */
  lemma {:induction false} FillEdgesEntry(n: nat, edges: seq<Edge>, w: seq<real>, i: nat, j: nat)
    requires |w| == |edges| && EdgesIn(edges, n) && i < n && j < n
    ensures FillEdges(n, edges, w)[i][j] == EdgeEntry(edges, w, i, j)
    decreases |edges|
  {
    if |edges| > 0 {
      var k := |edges| - 1;
      FillEdgesEntry(n, edges[..k], w[..k], i, j);
    }
  }

  /** Lines 123-126: each diagonal entry becomes minus its column sum, sums taken first. */
  function SetDiagonal(m: Matrix, n: nat): (l: Matrix)
    requires IsSquare(m, n)
    ensures IsSquare(l, n)
    ensures forall i, j :: 0 <= i < n && 0 <= j < n && i != j ==> l[i][j] == m[i][j]
  {
    var sums := ColumnSums(m, n);
    seq(n, i requires 0 <= i < n => m[i][i := -sums[i]])
  }

  /** The Laplacian of lines 115-126 for n vertices, the edge list and one weight per edge. */
  function Laplacian(n: nat, edges: seq<Edge>, w: seq<real>): (l: Matrix)
    requires |w| == |edges| && EdgesIn(edges, n)
    ensures IsSquare(l, n) && IsSymmetric(l, n)
  {
    var m := FillEdges(n, edges, w);
    SetDiagonalSymmetric(m, n);
    SetDiagonal(m, n)
  }

  /** The diagonal fill touches only the diagonal, so it keeps a matrix symmetric. */
  lemma SetDiagonalSymmetric(m: Matrix, n: nat)
    requires IsSquare(m, n) && IsSymmetric(m, n)
    ensures IsSymmetric(SetDiagonal(m, n), n)
  {
  }

  /** `np.sum(m, axis=0)`: the sum of every column. */
  function ColumnSums(m: Matrix, n: nat): (s: Vector)
    requires IsSquare(m, n)
    ensures |s| == n
  {
    seq(n, i requires 0 <= i < n => Sum(Column(m, i)))
  }

  /** Lines 115-121 as the plugin runs them: one pass over the edges, writing both orientations. */
  method FillEdgesLoop(n: nat, edges: seq<Edge>, w: seq<real>) returns (l: Matrix)
    requires |w| == |edges| && EdgesIn(edges, n)
    ensures l == FillEdges(n, edges, w)
  {
    l := ZeroMatrix(n);
    var k := 0;
    while k < |edges|
      invariant 0 <= k <= |edges|
      invariant l == FillEdges(n, edges[..k], w[..k])
    {
      var e := edges[k];
      ghost var before := l;
      l := l[e.v0 := l[e.v0][e.v1 := w[k]]];
      l := l[e.v1 := l[e.v1][e.v0 := w[k]]];
      assert l == WriteEdge(before, n, e, w[k]);
      assert edges[..k + 1][..k] == edges[..k];
      assert w[..k + 1][..k] == w[..k];
      k := k + 1;
    }
    assert edges[..k] == edges && w[..k] == w;
  }

  /** Lines 123-126 as the plugin runs them: column sums first, then one diagonal write per vertex. */
  method SetDiagonalLoop(m: Matrix, n: nat) returns (l: Matrix)
    requires IsSquare(m, n)
    ensures l == SetDiagonal(m, n)
  {
    var vSum := ColumnSums(m, n);
    l := m;
    var i := 0;
    while i < n
      invariant 0 <= i <= n
      invariant |l| == n
      invariant forall r :: 0 <= r < n ==>
        l[r] == if r < i then m[r][r := -vSum[r]] else m[r]
    {
      ghost var before := l;
      l := l[i := l[i][i := -vSum[i]]];
      assert forall r :: 0 <= r < n && r != i ==> l[r] == before[r];
      i := i + 1;
    }
  }

  /** Lines 115-126 as the plugin runs them. */
  method BuildLaplacian(n: nat, edges: seq<Edge>, w: seq<real>) returns (l: Matrix)
    requires |w| == |edges| && EdgesIn(edges, n)
    ensures l == Laplacian(n, edges, w)
  {
    var filled := FillEdgesLoop(n, edges, w);
    l := SetDiagonalLoop(filled, n);
  }

  // ---------------------------------------------------------------------------
  // Properties of the Laplacian

  lemma {:induction false} LastJoinSymmetric(edges: seq<Edge>, i: nat, j: nat)
    ensures LastJoin(edges, i, j) == LastJoin(edges, j, i)
    decreases |edges|
  {
    if |edges| > 0 {
      LastJoinSymmetric(edges[..|edges| - 1], i, j);
    }
  }

  /**
   * Lines 117-126: the Laplacian is symmetric, self-loops and duplicate edges
   * included. A corollary of `Laplacian`'s own contract, kept as a named fact.
   */
  lemma LaplacianSymmetric(n: nat, edges: seq<Edge>, w: seq<real>)
    requires |w| == |edges| && EdgesIn(edges, n)
    ensures IsSymmetric(Laplacian(n, edges, w), n)
  {
  }

  /**
   * Lines 117-126: off the diagonal, cell [i][j] holds the weight of the last
   * edge connecting i and j, and 0 when no edge does.
   */
  lemma LaplacianOffDiagonal(n: nat, edges: seq<Edge>, w: seq<real>, i: nat, j: nat)
    requires |w| == |edges| && EdgesIn(edges, n)
    requires i < n && j < n && i != j
    ensures Laplacian(n, edges, w)[i][j] == EdgeEntry(edges, w, i, j)
  {
    FillEdgesEntry(n, edges, w, i, j);
  }

  /** Column i after the diagonal fill is column i before it, with entry i replaced. */
  lemma SetDiagonalColumn(m: Matrix, n: nat, i: nat)
    requires IsSquare(m, n) && i < n
    ensures Column(SetDiagonal(m, n), i) == Column(m, i)[i := -Sum(Column(m, i))]
  {
    var c := Column(m, i);
    var dc := Column(SetDiagonal(m, n), i);
    forall r | 0 <= r < n
      ensures dc[r] == c[i := -Sum(c)][r]
    {
    }
  }

  /** Replacing entry i of a vector by minus its sum leaves a vector summing to minus the old entry. */
  lemma BalancedSum(c: Vector, i: nat)
    requires i < |c|
    ensures Sum(c[i := -Sum(c)]) == -c[i]
  {
    SumUpdate(c, i, -Sum(c));
  }

  /** Overwriting [i][i] with minus the column sum leaves column i summing to -m[i][i]. */
  lemma SetDiagonalColumnSum(m: Matrix, n: nat, i: nat)
    requires IsSquare(m, n) && i < n
    ensures Sum(Column(SetDiagonal(m, n), i)) == -m[i][i]
  {
    SetDiagonalColumn(m, n, i);
    BalancedSum(Column(m, i), i);
  }

  /**
   * Lines 123-126: column i of the Laplacian sums to minus whatever the edge
   * loop left on the diagonal at [i][i]; that is 0 unless a self-loop edge
   * wrote there.
   */
  lemma LaplacianColumnSum(n: nat, edges: seq<Edge>, w: seq<real>, i: nat)
    requires |w| == |edges| && EdgesIn(edges, n) && i < n
    ensures Sum(Column(Laplacian(n, edges, w), i)) == -FillEdges(n, edges, w)[i][i]
  {
    SetDiagonalColumnSum(FillEdges(n, edges, w), n, i);
  }

  /** Without self-loops no edge writes to the diagonal. */
  lemma FillDiagonalZero(n: nat, edges: seq<Edge>, w: seq<real>, i: nat)
    requires |w| == |edges| && EdgesIn(edges, n) && NoSelfLoops(edges) && i < n
    ensures FillEdges(n, edges, w)[i][i] == 0.0
  {
    FillEdgesEntry(n, edges, w, i, i);
    assert !Adjacent(edges, i, i);
  }

  /** Lines 123-126: with no self-loop edge, every column and every row sums to zero. */
  lemma LaplacianZeroSums(n: nat, edges: seq<Edge>, w: seq<real>)
    requires |w| == |edges| && EdgesIn(edges, n) && NoSelfLoops(edges)
    ensures forall i :: 0 <= i < n ==> Sum(Column(Laplacian(n, edges, w), i)) == 0.0
    ensures forall i :: 0 <= i < n ==> Sum(Laplacian(n, edges, w)[i]) == 0.0
  {
    var l := Laplacian(n, edges, w);
    LaplacianSymmetric(n, edges, w);
    forall i | 0 <= i < n
      ensures Sum(Column(l, i)) == 0.0 && Sum(l[i]) == 0.0
    {
      LaplacianColumnSum(n, edges, w, i);
      FillDiagonalZero(n, edges, w, i);
      assert l[i] == Column(l, i);
    }
  }

  /** Zero row sums: the all-ones vector is mapped to zero, so 0 is an eigenvalue. */
  lemma LaplacianKernel(n: nat, edges: seq<Edge>, w: seq<real>)
    requires |w| == |edges| && EdgesIn(edges, n) && NoSelfLoops(edges)
    ensures MatVec(Laplacian(n, edges, w), Ones(n)) == Zeros(n)
  {
    var l := Laplacian(n, edges, w);
    LaplacianZeroSums(n, edges, w);
    forall i | 0 <= i < n
      ensures MatVec(l, Ones(n))[i] == 0.0
    {
      DotOnes(l[i]);
    }
  }

  /** One cell of the uniform-weight Laplacian without self-loops. */
  lemma UniformEntry(n: nat, edges: seq<Edge>, i: nat, j: nat)
    requires EdgesIn(edges, n) && NoSelfLoops(edges) && i < n && j < n
    ensures Laplacian(n, edges, UniformWeights(edges))[i][j] ==
      if i == j then -(|Neighbours(edges, n, i)| as real)
      else if Adjacent(edges, i, j) then 1.0 else 0.0
  {
    var w := UniformWeights(edges);
    if i == j {
      var c := Column(FillEdges(n, edges, w), i);
      var nb := Neighbours(edges, n, i);
      forall k | 0 <= k < |c|
        ensures c[k] == if k in nb then 1.0 else 0.0
      {
        FillEdgesEntry(n, edges, w, k, i);
        LastJoinSymmetric(edges, i, k);
        assert !Adjacent(edges, i, i);
      }
      SumIndicator(c, nb);
    } else {
      FillEdgesEntry(n, edges, w, i, j);
    }
  }

  /**
   * Lines 111 and 117-126 with the production weight 1 and no self-loops:
   * an off-diagonal cell is 1 exactly when some edge connects its row and
   * column, and the diagonal is minus the number of distinct neighbours
   * (duplicate edges overwrite instead of adding up).
   */
  lemma UniformLaplacian(n: nat, edges: seq<Edge>)
    requires EdgesIn(edges, n) && NoSelfLoops(edges)
    ensures forall i, j :: 0 <= i < n && 0 <= j < n && i != j ==>
      Laplacian(n, edges, UniformWeights(edges))[i][j] == if Adjacent(edges, i, j) then 1.0 else 0.0
    ensures forall i :: 0 <= i < n ==>
      Laplacian(n, edges, UniformWeights(edges))[i][i] == -(|Neighbours(edges, n, i)| as real)
  {
    forall i, j | 0 <= i < n && 0 <= j < n
      ensures Laplacian(n, edges, UniformWeights(edges))[i][j] ==
        if i == j then -(|Neighbours(edges, n, i)| as real)
        else if Adjacent(edges, i, j) then 1.0 else 0.0
    {
      UniformEntry(n, edges, i, j);
    }
  }

  /**
   * The four-vertex cycle 0-1-2-3-0. The lemmas below take the edge list as a
   * parameter `edges` with `requires edges == Cycle4()` instead of writing
   * `Cycle4()` inline: an opaque name keeps the solver from unfolding the
   * literal into every term, which makes these proofs cheap.
   */
  function Cycle4(): seq<Edge> {
    [Edge(0, 1), Edge(1, 2), Edge(2, 3), Edge(3, 0)]
  }

  /** The four-cycle connects two distinct vertices exactly when their indices differ in parity. */
  lemma CycleAdjacent(edges: seq<Edge>, i: nat, j: nat)
    requires edges == Cycle4() && i < 4 && j < 4 && i != j
    ensures Adjacent(edges, i, j) <==> (i + j) % 2 == 1
  {
    if (i + j) % 2 == 1 {
      var lo := if i < j then i else j;
      var hi := if i < j then j else i;
      var k := if lo == 0 && hi == 3 then 3 else lo;
      assert Joins(edges[k], i, j);
    } else {
      forall k | 0 <= k < 4
        ensures !Joins(edges[k], i, j)
      {
      }
    }
  }

  /** Every vertex of the four-cycle has exactly two distinct neighbours. */
  lemma CycleDegree(edges: seq<Edge>, i: nat)
    requires edges == Cycle4() && i < 4
    ensures |Neighbours(edges, 4, i)| == 2
  {
    var a := (i + 1) % 4;
    var b := (i + 3) % 4;
    forall j: nat | j < 4 && j != i
      ensures Adjacent(edges, i, j) <==> (i + j) % 2 == 1
    {
      CycleAdjacent(edges, i, j);
    }
    assert Neighbours(edges, 4, i) == {a, b};
  }

  /** The expected cell of the four-cycle Laplacian: -2 on the diagonal, 1 between neighbours. */
  function CycleValue(i: nat, j: nat): real {
    if i == j then -2.0 else if (i + j) % 2 == 1 then 1.0 else 0.0
  }

  lemma CycleEntry(edges: seq<Edge>, i: nat, j: nat)
    requires edges == Cycle4() && i < 4 && j < 4
    ensures Laplacian(4, edges, UniformWeights(edges))[i][j] == CycleValue(i, j)
  {
    assert NoSelfLoops(edges) && EdgesIn(edges, 4);
    UniformEntry(4, edges, i, j);
    if i == j {
      CycleDegree(edges, i);
    } else {
      CycleAdjacent(edges, i, j);
    }
  }

  /**
   * Lines 111 and 115-126 on the four-vertex cycle: the plugin's sign
   * convention gives -2 on the diagonal and +1 between cycle neighbours.
   */
  lemma CycleLaplacian(edges: seq<Edge>)
    requires edges == Cycle4()
    ensures Laplacian(4, edges, UniformWeights(edges)) ==
      [[-2.0, 1.0, 0.0, 1.0],
       [1.0, -2.0, 1.0, 0.0],
       [0.0, 1.0, -2.0, 1.0],
       [1.0, 0.0, 1.0, -2.0]]
  {
    var l := Laplacian(4, edges, UniformWeights(edges));
    var expected: Matrix :=
      [[-2.0, 1.0, 0.0, 1.0],
       [1.0, -2.0, 1.0, 0.0],
       [0.0, 1.0, -2.0, 1.0],
       [1.0, 0.0, 1.0, -2.0]];
    forall i | 0 <= i < 4
      ensures l[i] == expected[i]
    {
      forall j | 0 <= j < 4
        ensures l[i][j] == expected[i][j]
      {
        CycleEntry(edges, i, j);
      }
    }
    assert l == expected;
  }
}
