/**
 * The per-object state machine of the plugin: `SMP_InitObject` samples the
 * vertex coordinates, builds the Laplacian, runs the eigensolver and stores
 * everything on the mesh; `SMP_Reconstruct` reads the stored arrays and
 * writes filtered coordinates back; `SMP_Revert` writes the stored
 * coordinates back verbatim; the bandwidth callback initialises lazily and
 * then reconstructs with the line-24 mask.
 *
 * Host access is abstracted: the mesh is a value holding its coordinates and
 * edges, and the eigensolver is a function parameter applied to the built
 * Laplacian.
 */
module SpectralObject {
  import opened Wrappers
  import opened LinAlg
  import opened LaplacianBuilder
  import opened Bandwidth
  import opened Spectral

  /** Vertex coordinates, one sequence per axis, indexed by vertex. */
  datatype Coords = Coords(x: Vector, y: Vector, z: Vector)

  /** The eigensolver's answer: eigenvalues `d` and eigenvectors as the columns of `e`. */
  datatype Eigen = Eigen(d: Vector, e: Matrix)

  /** Lines 139-150: the arrays kept on the mesh by initialisation. */
  datatype Store = Store(
    n: nat,
    x: Vector, y: Vector, z: Vector,
    d: Vector, e: Matrix,
    eX: Vector, eY: Vector, eZ: Vector)

  /**
   * A mesh object: current coordinates, edge list, the `SMP_Initialised`
   * flag, and the stored arrays (absent until the first initialisation).
   */
  datatype MeshObject = MeshObject(
    coords: Coords,
    edges: seq<Edge>,
    initialised: bool,
    store: Option<Store>)

  datatype Error =
    /** The stored arrays are read before any initialisation stored them (a missing key). */
    | NotInitialised
    /** A filter whose length is not n: the resampling branch names an undefined variable. */
    | FilterLengthMismatch

  /** Three coordinate sequences of length n. */
  predicate CoordsOfSize(c: Coords, n: nat) {
    |c.x| == n && |c.y| == n && |c.z| == n
  }

  /** Every stored array has the shape initialisation gives it. */
  predicate StoreValid(s: Store) {
    && |s.x| == s.n && |s.y| == s.n && |s.z| == s.n
    && |s.d| == s.n && IsSquare(s.e, s.n)
    && |s.eX| == s.n && |s.eY| == s.n && |s.eZ| == s.n
  }

  function VertexCount(o: MeshObject): nat {
    |o.coords.x|
  }

  /**
   * The object's invariant: consistent coordinates, edges inside the vertex
   * range, a store whenever the flag is set, and a store sized for this mesh.
   */
  predicate Valid(o: MeshObject) {
    && CoordsOfSize(o.coords, VertexCount(o))
    && EdgesIn(o.edges, VertexCount(o))
    && (o.initialised ==> o.store.Some?)
    && (o.store.Some? ==> StoreValid(o.store.value) && o.store.value.n == VertexCount(o))
  }

  /** Lines 108-126: the Laplacian of the object's edges with the production weight 1. */
  function ObjectLaplacian(o: MeshObject): (l: Matrix)
    requires Valid(o)
    ensures IsSquare(l, VertexCount(o))
  {
    Laplacian(VertexCount(o), o.edges, UniformWeights(o.edges))
  }

  /** The eigensolver returns n eigenvalues and an n-by-n eigenvector matrix for this object. */
  predicate SolverFits(solve: Matrix -> Eigen, o: MeshObject)
    requires Valid(o)
  {
    var r := solve(ObjectLaplacian(o));
    |r.d| == VertexCount(o) && IsSquare(r.e, VertexCount(o))
  }

  /**
   * Lines 47-154: sample the coordinates, decompose the Laplacian, project
   * every axis onto the eigenvectors, store it all and set the flag. Any
   * earlier store is replaced as a whole; the coordinates are not moved.
   */
  function Initialise(o: MeshObject, solve: Matrix -> Eigen): (r: MeshObject)
    requires Valid(o) && SolverFits(solve, o)
    ensures Valid(r) && r.initialised
    ensures r.coords == o.coords && r.edges == o.edges
    ensures r.store.Some?
    ensures r.store.value.n == VertexCount(o)
    ensures r.store.value.x == o.coords.x && r.store.value.y == o.coords.y
         && r.store.value.z == o.coords.z
    ensures r.store.value.e == solve(ObjectLaplacian(o)).e
         && r.store.value.d == solve(ObjectLaplacian(o)).d
    ensures forall i :: 0 <= i < VertexCount(o) ==>
      && r.store.value.eX[i] == Dot(Column(r.store.value.e, i), o.coords.x)
      && r.store.value.eY[i] == Dot(Column(r.store.value.e, i), o.coords.y)
      && r.store.value.eZ[i] == Dot(Column(r.store.value.e, i), o.coords.z)
  {
    var n := VertexCount(o);
    var eig := solve(ObjectLaplacian(o));
    var s := Store(
      n,
      o.coords.x, o.coords.y, o.coords.z,
      eig.d, eig.e,
      Project(eig.e, n, o.coords.x), Project(eig.e, n, o.coords.y), Project(eig.e, n, o.coords.z));
    o.(initialised := true, store := Some(s))
  }

  /** Lines 181-183: the three reconstructed axes for filter `w`. */
  function ReconstructCoords(s: Store, w: Vector): (c: Coords)
    requires StoreValid(s) && |w| == s.n
    ensures CoordsOfSize(c, s.n)
  {
    Coords(
      ReconstructAxis(s.e, s.n, s.eX, w),
      ReconstructAxis(s.e, s.n, s.eY, w),
      ReconstructAxis(s.e, s.n, s.eZ, w))
  }

  /**
   * Lines 158-188: read the store, reject a filter of the wrong length, and
   * overwrite the coordinates with the reconstruction. The store and the flag
   * are only read.
   */
  function Reconstruct(o: MeshObject, w: Vector): (r: Result<MeshObject, Error>)
    requires Valid(o)
    ensures o.store.None? ==> r == Err(NotInitialised)
    ensures o.store.Some? && |w| != VertexCount(o) ==> r == Err(FilterLengthMismatch)
    ensures r.Ok? <==> o.store.Some? && |w| == VertexCount(o)
    ensures r.Ok? ==> Valid(r.value)
    ensures r.Ok? ==>
      r.value.store == o.store && r.value.initialised == o.initialised && r.value.edges == o.edges
  {
    match o.store
    case None => Err(NotInitialised)
    case Some(s) =>
      if |w| != s.n then Err(FilterLengthMismatch)
      else Ok(o.(coords := ReconstructCoords(s, w)))
  }

  /**
   * Lines 190-203: write the stored coordinates back. Only the coordinates
   * change.
   */
  function Revert(o: MeshObject): (r: Result<MeshObject, Error>)
    requires Valid(o)
    ensures r.Err? <==> o.store.None?
    ensures r.Err? ==> r.error == NotInitialised
    ensures r.Ok? ==> Valid(r.value)
    ensures r.Ok? ==> r.value.coords == Coords(o.store.value.x, o.store.value.y, o.store.value.z)
    ensures r.Ok? ==>
      r.value.store == o.store && r.value.initialised == o.initialised && r.value.edges == o.edges
  {
    match o.store
    case None => Err(NotInitialised)
    case Some(s) => Ok(o.(coords := Coords(s.x, s.y, s.z)))
  }

  /**
   * Lines 19-25: the bandwidth callback initialises first when the flag is
   * clear, then reconstructs every axis with the mask for the current vertex
   * count. The bandwidth it reads has already been clamped into the
   * property's bounds (lines 38-41). The mask always has the stored length,
   * so this path never fails.
   */
  function BandwidthUpdate(o: MeshObject, solve: Matrix -> Eigen, b: real): (r: Result<MeshObject, Error>)
    requires Valid(o)
    requires !o.initialised ==> SolverFits(solve, o)
    ensures r.Ok? && Valid(r.value) && r.value.initialised
    ensures r.value.edges == o.edges
    ensures o.initialised ==> r.value.store == o.store
    ensures !o.initialised ==> r.value.store == Initialise(o, solve).store
    ensures r.value.coords
         == ReconstructCoords(r.value.store.value, Mask(VertexCount(o), ClampBandwidth(b)))
  {
    var ready := if !o.initialised then Initialise(o, solve) else o;
    Reconstruct(ready, Mask(VertexCount(ready), ClampBandwidth(b)))
  }

  /** What the host can ask of an initialised object. */
  datatype Command =
    | SetFilter(w: Vector)
    | SetBandwidth(b: real)
    | RevertCommand

  /**
   * One command on an initialised object. A failed call raises before any
   * vertex is written, so the object is left as it was.
   */
  function Step(o: MeshObject, solve: Matrix -> Eigen, cmd: Command): (r: MeshObject)
    requires Valid(o) && o.initialised
    ensures Valid(r) && r.initialised
    ensures r.store == o.store && r.edges == o.edges
    ensures cmd.SetFilter? && |cmd.w| != VertexCount(o) ==> r == o
    ensures cmd.SetFilter? && |cmd.w| == VertexCount(o) ==>
      r.coords == ReconstructCoords(o.store.value, cmd.w)
    ensures cmd.SetBandwidth? ==>
      r.coords == ReconstructCoords(o.store.value, Mask(VertexCount(o), ClampBandwidth(cmd.b)))
    ensures cmd.RevertCommand? ==>
      r.coords == Coords(o.store.value.x, o.store.value.y, o.store.value.z)
  {
    var res := match cmd
      case SetFilter(w) => Reconstruct(o, w)
      case SetBandwidth(b) => BandwidthUpdate(o, solve, b)
      case RevertCommand => Revert(o);
    if res.Ok? then res.value else o
  }

  /** A run of commands on an initialised object never touches its store. */
  function Run(o: MeshObject, solve: Matrix -> Eigen, cmds: seq<Command>): (r: MeshObject)
    requires Valid(o) && o.initialised
    ensures Valid(r) && r.initialised
    ensures r.store == o.store && r.edges == o.edges
    decreases |cmds|
  {
    if |cmds| == 0 then o
    else Run(Step(o, solve, cmds[0]), solve, cmds[1..])
  }

  // ---------------------------------------------------------------------------
  // Properties of the state machine

  /** Lines 158-188: reconstructing twice with the same filter gives the same object. */
  lemma ReconstructIdempotent(o: MeshObject, w: Vector)
    requires Valid(o)
    requires Reconstruct(o, w).Ok?
    ensures Reconstruct(Reconstruct(o, w).value, w) == Reconstruct(o, w)
  {
  }

  /**
   * Lines 158-188: the output depends only on the store and the filter, and
   * each axis only on E, that axis's coefficients and the filter.
   */
  lemma ReconstructReadsOnlyStore(o1: MeshObject, o2: MeshObject, w: Vector)
    requires Valid(o1) && Valid(o2)
    requires Reconstruct(o1, w).Ok? && Reconstruct(o2, w).Ok?
    ensures o1.store.value.e == o2.store.value.e && o1.store.value.eX == o2.store.value.eX
      ==> Reconstruct(o1, w).value.coords.x == Reconstruct(o2, w).value.coords.x
    ensures o1.store == o2.store
      ==> Reconstruct(o1, w).value.coords == Reconstruct(o2, w).value.coords
  {
  }

  /** Lines 181-188: an all-zero filter collapses every vertex to the origin. */
  lemma ZeroFilterCollapses(o: MeshObject)
    requires Valid(o) && o.store.Some?
    ensures Reconstruct(o, Zeros(VertexCount(o))).Ok?
    ensures Reconstruct(o, Zeros(VertexCount(o))).value.coords
         == Coords(Zeros(VertexCount(o)), Zeros(VertexCount(o)), Zeros(VertexCount(o)))
  {
    var s := o.store.value;
    ReconstructZeroFilter(s.e, s.n, s.eX);
    ReconstructZeroFilter(s.e, s.n, s.eY);
    ReconstructZeroFilter(s.e, s.n, s.eZ);
  }

  /** Lines 47-154 then 190-203: reverting a freshly initialised object changes nothing. */
  lemma InitialiseThenRevert(o: MeshObject, solve: Matrix -> Eigen)
    requires Valid(o) && SolverFits(solve, o)
    ensures Revert(Initialise(o, solve)) == Ok(Initialise(o, solve))
  {
  }

  /**
   * Lines 141-143, 158-188 and 190-203: whatever filters, bandwidths and
   * reverts ran since initialisation, revert restores the coordinates
   * sampled then.
   */
  lemma RevertAfterRun(o: MeshObject, solve: Matrix -> Eigen, cmds: seq<Command>)
    requires Valid(o) && SolverFits(solve, o)
    ensures Revert(Run(Initialise(o, solve), solve, cmds)).Ok?
    ensures Revert(Run(Initialise(o, solve), solve, cmds)).value.coords == o.coords
  {
  }

  /**
   * Lines 133-135 and 181-183: right after initialisation, an all-ones filter
   * reproduces the sampled coordinates, provided the eigenvector matrix E
   * satisfies E E^T = I (the solver is not required to deliver that).
   */
  lemma InitialiseRoundTrip(o: MeshObject, solve: Matrix -> Eigen)
    requires Valid(o) && SolverFits(solve, o)
    requires RowsOrthonormal(solve(ObjectLaplacian(o)).e, VertexCount(o))
    ensures Reconstruct(Initialise(o, solve), Ones(VertexCount(o)))
         == Ok(Initialise(o, solve))
  {
    var n := VertexCount(o);
    var e := solve(ObjectLaplacian(o)).e;
    RoundTrip(e, n, o.coords.x);
    RoundTrip(e, n, o.coords.y);
    RoundTrip(e, n, o.coords.z);
  }

  /**
   * Lines 19-25 with the default bandwidth 1 on an uninitialised object: it
   * is initialised and, for E E^T = I, its coordinates come back unchanged.
   */
  lemma FullBandwidthKeepsShape(o: MeshObject, solve: Matrix -> Eigen)
    requires Valid(o) && !o.initialised && SolverFits(solve, o)
    requires RowsOrthonormal(solve(ObjectLaplacian(o)).e, VertexCount(o))
    ensures BandwidthUpdate(o, solve, 1.0) == Ok(Initialise(o, solve))
  {
    MaskFull(VertexCount(o));
    InitialiseRoundTrip(o, solve);
  }

  /**
   * Lines 181-183: when the eigenvectors are orthonormal, each reconstructed
   * axis has exactly the filtered coefficients e_X * w, e_Y * w and e_Z * w
   * in the eigenbasis.
   */
  lemma ReconstructFiltersCoefficients(o: MeshObject, w: Vector)
    requires Valid(o) && o.store.Some? && |w| == VertexCount(o)
    requires ColumnsOrthonormal(o.store.value.e, VertexCount(o))
    ensures Reconstruct(o, w).Ok?
    ensures Project(o.store.value.e, VertexCount(o), Reconstruct(o, w).value.coords.x)
         == Hadamard(o.store.value.eX, w)
    ensures Project(o.store.value.e, VertexCount(o), Reconstruct(o, w).value.coords.y)
         == Hadamard(o.store.value.eY, w)
    ensures Project(o.store.value.e, VertexCount(o), Reconstruct(o, w).value.coords.z)
         == Hadamard(o.store.value.eZ, w)
  {
    var s := o.store.value;
    FilterIsDiagonal(s.e, s.n, s.eX, w);
    FilterIsDiagonal(s.e, s.n, s.eY, w);
    FilterIsDiagonal(s.e, s.n, s.eZ, w);
  }

  /**
   * Lines 19-25 for every bandwidth b: when the eigenvectors are orthonormal,
   * the callback leaves each axis with the stored coefficients cut to their
   * first `KeptCount` entries (b clamped into [0, 1] first) and the rest zero.
   */
  lemma BandwidthKeepsPrefix(o: MeshObject, solve: Matrix -> Eigen, b: real)
    requires Valid(o) && (!o.initialised ==> SolverFits(solve, o))
    requires ColumnsOrthonormal(BandwidthUpdate(o, solve, b).value.store.value.e, VertexCount(o))
    ensures var r := BandwidthUpdate(o, solve, b).value;
      var s := r.store.value;
      var keep := PrefixOnes(VertexCount(o), KeptCount(VertexCount(o), ClampBandwidth(b)));
      && Project(s.e, VertexCount(o), r.coords.x) == Hadamard(s.eX, keep)
      && Project(s.e, VertexCount(o), r.coords.y) == Hadamard(s.eY, keep)
      && Project(s.e, VertexCount(o), r.coords.z) == Hadamard(s.eZ, keep)
  {
    var n := VertexCount(o);
    var s := BandwidthUpdate(o, solve, b).value.store.value;
    MaskIsPrefix(n, ClampBandwidth(b));
    FilterIsDiagonal(s.e, n, s.eX, Mask(n, ClampBandwidth(b)));
    FilterIsDiagonal(s.e, n, s.eY, Mask(n, ClampBandwidth(b)));
    FilterIsDiagonal(s.e, n, s.eZ, Mask(n, ClampBandwidth(b)));
  }

  /**
   * Lines 24 and 38-41: a bandwidth below 0 acts as 0, which still keeps
   * coefficient 0; one above 1 acts as 1.
   */
  lemma BandwidthOutOfRange(o: MeshObject, solve: Matrix -> Eigen, b: real)
    requires Valid(o) && (!o.initialised ==> SolverFits(solve, o))
    ensures b < 0.0 ==> BandwidthUpdate(o, solve, b) == BandwidthUpdate(o, solve, 0.0)
    ensures b > 1.0 ==> BandwidthUpdate(o, solve, b) == BandwidthUpdate(o, solve, 1.0)
  {
  }
}
