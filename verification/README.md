# SpectralMesh in Dafny

A model of the numerical core of the SpectralMesh Blender plugin
(`SMP_Plugin.py`). The plugin builds a graph Laplacian from a mesh's edges,
takes its eigenvectors E, projects the x, y and z vertex coordinates onto
them, and rebuilds the coordinates from filtered coefficients. The filter is
usually a bandwidth mask that keeps a prefix of the coefficients.

numpy floats are modelled as exact Dafny `real`s. Vectors are `seq<real>`.
Matrices are `seq<seq<real>>`, a sequence of rows.

Modules, leaves first:

- `Wrappers` (`wrappers.dfy`): `Option` and `Result`.
- `LinAlg` (`linalg.dfy`): sums, inner products, transpose and
  matrix-vector products. It also proves their linearity, the associativity
  step `a·(M v) = (a M)·v`, and the two inverse laws under orthonormality.
- `LaplacianBuilder` (`laplacian.dfy`): the edge loop and the diagonal fill
  of `SMP_InitObject`. They appear as pure functions and also as loop
  methods written the way the plugin runs them.
- `Bandwidth` (`bandwidth.dfy`): the index mask of the bandwidth callback.
- `Spectral` (`spectral.dfy`): projection `Eᵀ·X` and per-axis reconstruction
  `E·(c ⊙ w)`.
- `SpectralObject` (`smp_object.dfy`): the per-object record and its
  operations, as a small immutable state machine. The record holds the
  `SMP_Initialised` flag and the stored arrays n, X/Y/Z, D, E and
  e_X/e_Y/e_Z. The operations are Initialise, Reconstruct, Revert and the
  bandwidth callback.

The eigensolver is the function parameter `solve`. Initialise applies it to
the Laplacian it builds. Errors are `Result` values:

- `NotInitialised`: the stored arrays are read before they exist.
- `FilterLengthMismatch`: the filter's length is not n.

## Model

| member | source | states |
|---|---|---|
| `LaplacianBuilder.LastJoin` | SMP_Plugin.py:117-121 | returns the index of the last edge joining i and j, so its write is the one that survives. Returns None exactly when no edge joins them. |
| `LaplacianBuilder.FillEdges` | SMP_Plugin.py:115-121 | the matrix after the edge loop is n-by-n and symmetric, because each edge writes both `[a,b]` and `[b,a]`. Its cells are given by `FillEdgesEntry`. |
| `LaplacianBuilder.SetDiagonal` | SMP_Plugin.py:123-126 | the diagonal fill returns an n-by-n matrix and changes no off-diagonal cell. `SetDiagonalColumnSum` gives what it writes on the diagonal. |
| `LaplacianBuilder.SetDiagonalSymmetric` | SMP_Plugin.py:123-126 | because the diagonal fill touches only the diagonal, a symmetric matrix stays symmetric. |
| `LaplacianBuilder.Laplacian` | SMP_Plugin.py:115-126 | the Laplacian built from n vertices, the edges and the weights is n-by-n and symmetric. |
| `LaplacianBuilder.FillEdgesEntry` | SMP_Plugin.py:117-121 | after the edge loop, each cell [i][j] holds the weight of the last edge joining i and j (as `LastJoin` identifies it), or 0 when no edge joins them. |
| `LaplacianBuilder.FillEdgesLoop` | SMP_Plugin.py:115-121 | the in-place loop, which writes `[a,b]` then `[b,a]` for each edge, gives exactly the matrix of `FillEdges`. |
| `LaplacianBuilder.SetDiagonalLoop` | SMP_Plugin.py:123-126 | column sums are computed once, before the loop. The loop then writes `L[i,i] = -v_sum[i]`, which is the diagonal fill. |
| `LaplacianBuilder.BuildLaplacian` | SMP_Plugin.py:115-126 | the whole imperative construction equals the functional Laplacian. |
| `LaplacianBuilder.LaplacianSymmetric` | SMP_Plugin.py:117-126 | the Laplacian is symmetric for any edge list and any weights. |
| `LaplacianBuilder.LaplacianOffDiagonal` | SMP_Plugin.py:117-126 | the diagonal fill leaves the off-diagonal cells alone. Each one keeps the edge loop's value: the weight of the last edge joining its row and column, or 0. |
| `LaplacianBuilder.SetDiagonalColumnSum` | SMP_Plugin.py:123-126 | after the diagonal fill of any square matrix, column i sums to minus what was at [i][i] before the fill. |
| `LaplacianBuilder.FillDiagonalZero` | SMP_Plugin.py:115-121 | with no self-loop edges, the edge loop leaves every diagonal cell at 0, so the value `SetDiagonalColumnSum` subtracts is 0. |
| `LaplacianBuilder.LaplacianZeroSums` | SMP_Plugin.py:123-126 | with no self-loop edges, every column and every row sums to zero. |
| `LaplacianBuilder.LaplacianKernel` | SMP_Plugin.py:115-126 | with no self-loop edges, L maps the all-ones vector to zero, so 0 is an eigenvalue. |
| `LaplacianBuilder.UniformEntry` | SMP_Plugin.py:111-126 | with weight 1 and no self-loops: an off-diagonal cell is 1 exactly when some edge joins its row and column, and 0 otherwise. A diagonal cell is minus the number of distinct neighbours. |
| `LaplacianBuilder.UniformLaplacian` | SMP_Plugin.py:108-126 | states the `UniformEntry` facts for every cell. Duplicate edges do not raise the degree. |
| `LaplacianBuilder.CycleLaplacian` | SMP_Plugin.py:111-126 | for the 4-vertex cycle 0-1-2-3-0 with weight 1, L is `[[-2,1,0,1],[1,-2,1,0],[0,1,-2,1],[1,0,1,-2]]`, using the plugin's sign convention. |
| `Bandwidth.ClampBandwidth` | SMP_Plugin.py:38-41 | the bandwidth the callback reads lies in [0, 1]. A value already inside is kept, a negative one becomes 0 and one above 1 becomes 1. |
| `Bandwidth.Mask` | SMP_Plugin.py:24 | the mask has length n. Coefficient i is 1 exactly when i < `KeptCount(n, b)`, that is, i <= floor(n·b); otherwise it is 0. |
| `Bandwidth.MaskIsPrefix` | SMP_Plugin.py:24 | the mask is k ones followed by n-k zeros, where k = floor(n·b)+1 clipped to [0, n]. |
| `Bandwidth.MaskMonotone` | SMP_Plugin.py:24 | every mask entry is 0 or 1, and entries never increase along the index. |
| `Bandwidth.MaskKeepsFirst` | SMP_Plugin.py:24 | for b within the property's bounds [0, 1] (lines 39-41) and n > 0, coefficient 0 is always kept. |
| `Bandwidth.MaskFull` | SMP_Plugin.py:24 | at b = 1, the property's default, the mask is all ones. |
| `Bandwidth.MaskEmptyBandwidth` | SMP_Plugin.py:24 | at b = 0 the mask keeps only coefficient 0, so it is not all zeros. |
| `Spectral.Project` | SMP_Plugin.py:133-135 | coefficient i is the inner product of eigenvector i (column i of E) with the signal. |
| `Spectral.ProjectLinear` | SMP_Plugin.py:133-135 | projection is additive and homogeneous in the signal. |
| `Spectral.ProjectIdentity` | SMP_Plugin.py:133 | when E is the identity, the coefficients are the signal itself. |
| `Spectral.ReconstructAxis` | SMP_Plugin.py:181-183 | one reconstructed axis has length n. Vertex k is row k of E dotted with the filtered coefficients c ⊙ w. Its inverse law is `FilterIsDiagonal`. |
| `Spectral.ReconstructZeroFilter` | SMP_Plugin.py:181-183 | an all-zero filter reconstructs the zero vector for any E and any coefficients. |
| `Spectral.ReconstructOnesFilter` | SMP_Plugin.py:181 | an all-ones filter reconstructs E·c. |
| `Spectral.ReconstructLinear` | SMP_Plugin.py:181-183 | reconstruction is additive and homogeneous in the coefficients. |
| `Spectral.RoundTrip` | SMP_Plugin.py:133-135 | if E Eᵀ = I, reconstructing the projection of x with an all-ones filter gives x back. |
| `Spectral.FilterIsDiagonal` | SMP_Plugin.py:181-183 | if Eᵀ E = I, projecting a reconstruction gives back c ⊙ w, so the filter acts coefficient by coefficient. |
| `SpectralObject.Initialise` | SMP_Plugin.py:47-154 | sets the flag, leaves coordinates and edges alone, and stores n, the sampled X/Y/Z, and the eigenvalues D and eigenvectors E that the solver returns for this object's Laplacian (line 131). For every i, e_X[i], e_Y[i] and e_Z[i] are column i of E dotted with X, Y and Z. |
| `SpectralObject.Reconstruct` | SMP_Plugin.py:158-188 | with no store, the result is `NotInitialised`. With a filter of the wrong length, it is `FilterLengthMismatch`. Otherwise it succeeds; the store, the flag and the edges are unchanged and the object stays valid. |
| `SpectralObject.Revert` | SMP_Plugin.py:190-203 | fails exactly when there is no store. Otherwise the coordinates become the stored X/Y/Z, and nothing else changes. |
| `SpectralObject.BandwidthUpdate` | SMP_Plugin.py:19-25 | an object whose flag is clear is initialised first; an already-initialised one keeps its store. Given a solver that always answers, the update never fails. The new coordinates are the reconstruction of every axis with the line-24 mask, for the bandwidth clamped into [0, 1]. |
| `SpectralObject.Step` | SMP_Plugin.py:19-203 | one host command on an initialised object: the bandwidth callback (lines 19-25), a filter (158-188) or revert (190-203). A filter of the wrong length raises, so the object is unchanged. A filter of length n replaces the coordinates with its reconstruction. A bandwidth replaces them with the clamped mask's reconstruction. Revert writes the stored X/Y/Z back. The store and the edges never change. |
| `SpectralObject.Run` | SMP_Plugin.py:158-203 | a run of filter, bandwidth and revert commands on an initialised object leaves the store, the flag and the edges as they were. |
| `SpectralObject.ReconstructIdempotent` | SMP_Plugin.py:158-188 | reconstructing again with the same filter gives the same object. |
| `SpectralObject.ReconstructReadsOnlyStore` | SMP_Plugin.py:164-183 | the output depends only on the store and the filter. The x axis depends only on E, e_X and the filter, never on the Y or Z data. |
| `SpectralObject.ZeroFilterCollapses` | SMP_Plugin.py:181-188 | an all-zero filter moves every vertex to the origin. |
| `SpectralObject.InitialiseThenRevert` | SMP_Plugin.py:190-203 | reverting a freshly initialised object gives back that same object. |
| `SpectralObject.RevertAfterRun` | SMP_Plugin.py:141-143 | after any commands following initialisation, revert restores the coordinates sampled at initialisation, index for index. |
| `SpectralObject.InitialiseRoundTrip` | SMP_Plugin.py:131-135 | if the solver's E satisfies E Eᵀ = I, an all-ones filter right after initialisation gives back the object unchanged. |
| `SpectralObject.FullBandwidthKeepsShape` | SMP_Plugin.py:19-25 | on an uninitialised object with E Eᵀ = I, bandwidth 1 initialises the object and leaves its coordinates where they were. |
| `SpectralObject.ReconstructFiltersCoefficients` | SMP_Plugin.py:181-183 | if Eᵀ E = I, the reconstructed x, y and z axes have coefficients e_X ⊙ w, e_Y ⊙ w and e_Z ⊙ w in the eigenbasis. |
| `SpectralObject.BandwidthKeepsPrefix` | SMP_Plugin.py:19-25 | for every bandwidth b, if Eᵀ E = I, the callback leaves each axis with the stored coefficients cut to their first `KeptCount(n, b)` entries and zero after them, b clamped into [0, 1] first. |
| `SpectralObject.BandwidthOutOfRange` | SMP_Plugin.py:38-41 | a bandwidth below 0 has the same effect as 0, so coefficient 0 is still kept. A bandwidth above 1 has the same effect as 1. |

### Where the code departs from the usual definitions (the model follows the code)

- **Sign convention.** The usual graph Laplacian D − A has −w off the
  diagonal and +degree on it. The code (lines 120-126) builds the negative
  of that: `+w` off the diagonal and minus the column sum on it.
  `CycleLaplacian` shows what the code builds for a 4-cycle.
- **Diagonal source.** A Laplacian's diagonal is usually the row sum of the
  off-diagonals. Line 123 takes `np.sum(L, axis=0)`, the column sums of the
  filled matrix, and those include any self-loop weight on the diagonal.
  With no self-loops the two agree, by symmetry.
- **Bandwidth 0.** The commented-out mask at line 170 uses `<`, which keeps
  nothing at b = 0. Line 24 uses `<=`, which keeps coefficient 0
  (`MaskEmptyBandwidth`). The property's bounds clamp a negative bandwidth
  to 0 before the callback reads it (`ClampBandwidth`), so no bandwidth
  gives an all-zero filter.
- **Short filters.** Lines 175-179 evidently mean to resample a filter of
  another length by linear interpolation. But `np_x` is undefined, so the
  branch always raises; it is modelled as `FilterLengthMismatch`.
- **Uninitialised objects.** Reconstruct and Revert read the stored arrays
  without checking the flag. With nothing stored, they fail on the missing
  key before writing anything.

## Left out

- Blender access is not modelled. Reading `mesh.vertices[i].co`, the edge
  list, the `mode_set` / bmesh edit-mode switch, and the loops that write
  coordinates back are host I/O. The model treats the mesh as a value, and
  a write-back replaces its coordinates.
- The eigensolver `LA.eig` (line 131) is a foreign numeric routine. It is
  the parameter `solve`, and the model does not compute it. Dropping
  imaginary parts with `.astype(float)` is not modelled.
- RoundTrip, InitialiseRoundTrip and FullBandwidthKeepsShape assume
  E Eᵀ = I. FilterIsDiagonal, ReconstructFiltersCoefficients and
  BandwidthKeepsPrefix assume Eᵀ E = I. The solver does not promise either, so each is a precondition.
- Eigenvalue ordering is not modelled. The mask cuts by coefficient index,
  in whatever order the solver returns the eigenvectors. Whether that acts
  as a low-pass filter depends on that order, which the model leaves open.
- The cotangent weight helper (lines 78-106) is dead code, and it is
  floating-point trigonometry. Production forces weight 1 (line 111),
  which `UniformWeights` models. `Laplacian` itself accepts any weights.
- The byte encoding of stored arrays (`tostring` / `fromstring`) is not
  modelled. The store is a record of sequences. The unused `spectrum` blob
  (line 152) is dropped. Blobs of the wrong shape cannot arise in the
  model, because the `Valid` invariant ties every stored array to n.
- The `np.interp` resampling (lines 175-179) is not modelled, because the
  undefined name makes it unreachable. Only its failure is modelled.
- Changing a mesh's vertex count after initialisation is not modelled.
  `Valid` requires the stored n to equal the current vertex count.
- SpectralObject.BandwidthUpdate: "never fails" rests on two assumptions.
  First, the solver is total. `LA.eig` (line 131) can raise `LinAlgError`,
  and the model does not represent that failure. Second, the flag and the
  store stay together. In the program the flag is a property of the object
  (lines 34 and 154), but the store lives on its mesh (lines 139-150). If an
  initialised object's mesh were replaced, line 21 would skip initialisation
  and line 162 would raise `KeyError`. The model keeps both in one record,
  and `Valid` requires a store whenever the flag is set.
- Floating-point rounding is not modelled. Sums and products are exact
  reals, so "zero sums" hold exactly rather than within a tolerance.
- UI glue is not modelled: the panel, the two operators and their loops over
  the selection, property registration, `SMP_Use`, timing and prints
  (lines 17-44 apart from line 24, and lines 206-292). `SMP_Use` runs the
  same callback as the bandwidth property.
- An exception raised in a callback is not modelled. Its only visible effect
  here is that nothing was written, which is how `Step` treats a failed
  command.
