# Bell element transformation matrix

A Dafny model of the Bell element of FInAT (`finat/bell.py`): the C1 quintic
triangle of Bell (1969). The element's reference basis has 21 functions, but
the element exposes only 18 physical degrees of freedom, six per vertex (the
value, two first derivatives and three second derivatives). Its
`basis_transformation` builds a 21×18 matrix `V` of symbolic expression
nodes, changes its entries in place, and returns the 18×21 transpose packed
as one tensor node. The steps are:

- every entry starts as the literal 0;
- each vertex gets a 6×6 diagonal block built from the Jacobian `J`:
  - the value maps 1:1;
  - the first-derivative sub-block is `Jᵀ`;
  - the second-derivative sub-block holds nine quadratic expressions in the
    entries of `J`;
- the three auxiliary rows 18+e hold an edge constraint for edge e. It
  couples the edge's two endpoints through the flux `n̂ᵀ·J·t`, the edge length
  and the tangent;
- every derivative column is divided by the vertex's cell size `h[v]` (first
  derivatives) or by `h[v]²` (second derivatives).

The model has four modules:

- `Gem` (`gem.dfy`) is the expression algebra. `Expr` has `Literal`,
  `Indexed`, `Product`, `Sum`, `Division` and `Power` nodes. A `ListTensor`
  packs a matrix of nodes. `Reads` lists the tensor elements an expression
  selects. `Transpose` is the relabelling the result goes through.
- `BellMatrix` (`bell_matrix.dfy`) states every entry of `V`:
  - `Assembled(r, c)` gives the entry after the vertex and edge loops;
  - `Scaled(r, c)` gives it after the cell-size division.

  `BasisTransformation` builds `V` as an `array2<Expr>`, with the source's
  loops and in-place writes. It is proved to return the transpose of `Scaled`.
- `BellProperties` (`bell_properties.dfy`) proves what the matrix promises:
  - the exact vertex blocks and edge rows;
  - the endpoint asymmetry of the edge rows;
  - which entries stay 0;
  - that scaling wraps each entry exactly once;
  - that each row selects only the geometry it should, always within the
    tensors' extents.
- `BellElement` (`bell_element.dfy`) models the degree check made at
  construction, `entity_dofs`, `index_shape` and `space_dimension`.

The coordinate mapping's results are opaque symbolic tensors:

| tensor | what it is | shape |
|---|---|---|
| `J` | Jacobian | 2×2 |
| `RNS` | reference normals | 3×2 |
| `PTS` | physical tangents | 3×2 |
| `PEL` | physical edge lengths | 3 |
| `H` | cell sizes | 3 |

They appear only by name, inside `Indexed` nodes.

Three details of the code are kept exactly as written:

- There is no cell-shape check in `finat/bell.py`, so the model has none.
- Construction tests `degree != 5`, but its error message names degree 3.
  `NewBell` follows the test and keeps the message text as written.
- Both endpoints of an edge receive the same first-derivative entries. The
  v1 entry is a copy of the v0 entry, not its negation. The model keeps this,
  and `EndpointAsymmetry` states it.

## Model

| member | source | states |
|---|---|---|
| `Gem.Transpose` | finat/bell.py:122 | the result has the swapped shape, and entry (i, j) of the result is entry (j, i) of the input |
| `Gem.TransposeInvolution` | finat/bell.py:122 | transposing twice gives back the original matrix, so the transpose loses and changes nothing |
| `BellMatrix.Without` | finat/bell.py:60 | the filtered list holds exactly the elements other than the excluded one, and an increasing list stays increasing, so the comprehension over range(3) yields the two other vertices in order |
| `BellMatrix.WithoutCounts` | finat/bell.py:60 | every other element keeps its number of occurrences, and every occurrence of the excluded one is dropped |
| `BellMatrix.Endpoints` | finat/bell.py:59-60 | the endpoints of edge e are the two vertices other than e, with v0 < v1 < 3 |
| `BellMatrix.HessianEntry` | finat/bell.py:40-57 | reference definition, with no contract of its own: the nine second-derivative nodes node for node; `HessianReads` and `VertexBlockEntries` state their properties |
| `BellMatrix.BlockEntry` | finat/bell.py:34-57 | reference definition, with no contract of its own: vertex block entry (i, j), which is 1 at (0, 0), J[j-1, i-1] in the first-derivative sub-block, `HessianEntry` in the second-derivative sub-block, and 0 elsewhere; `VertexRow` places it in V |
| `BellMatrix.Flux` | finat/bell.py:62-72 | reference definition, with no contract of its own: the scalar `foo`, n̂ᵀ·J·t for edge e; `FluxReads` states exactly what it selects |
| `BellMatrix.Tau` | finat/bell.py:92-96 | its body is the definition (t_x², 2·t_x·t_y, t_y²); the contract gives only its length, 3, and `TauReads` states that it selects only edge e's tangent |
| `BellMatrix.EdgeEntry` | finat/bell.py:74-107 | reference definition, with no contract of its own: the entry of row 18+e in local column k of the v0 or v1 block; `EdgeRowEntries` and `EndpointAsymmetry` state its properties |
| `BellMatrix.Assembled` | finat/bell.py:29-107 | reference definition, with no contract of its own: V[r, c] after the zero fill, the vertex loop and the edge loop. `BasisTransformation` and `Rescale` are proved against it; `VertexRow`, `EdgeRow`, `ZeroExactlyWhereUnwritten` and `AssembledReads` state its properties |
| `BellMatrix.ScaleFactor` | finat/bell.py:109-120 | the divisor of derivative column c selects exactly the cell size h[c / 6] of the column's vertex |
| `BellMatrix.Scaled` | finat/bell.py:109-120 | reference definition, with no contract of its own: V[r, c] after the cell-size division. `Rescale` and `BasisTransformation` are proved against it; `ScaledWrapsOnce` and `ScaledReads` state its properties |
| `BellMatrix.VertexRow` | finat/bell.py:34-57 | before scaling, row 6v+i holds row i of vertex v's block in columns 6v..6v+5, and 0 in every other column |
| `BellMatrix.EdgeRow` | finat/bell.py:59-107 | before scaling, row 18+e holds the v0 entries in v0's columns, the v1 entries in v1's columns, and 0 in the columns of vertex e |
| `BellMatrix.FillZero` | finat/bell.py:29-32 | afterwards, every one of the 21×18 entries is the literal 0 |
| `BellMatrix.WriteJacobianTranspose` | finat/bell.py:37-39 | the 2×2 first-derivative sub-block starting at V[s+1, s+1] holds the transposed Jacobian, and nothing else changes |
| `BellMatrix.WriteHessian` | finat/bell.py:40-57 | the 3×3 second-derivative sub-block starting at V[s+3, s+3] holds the nine quadratic expressions, and nothing else changes |
| `BellMatrix.WriteVertexBlock` | finat/bell.py:34-57 | writes vertex v's block into rows 6v..6v+5, leaves their other columns at 0, and leaves every other row unchanged |
| `BellMatrix.WriteEdgeFirstDerivatives` | finat/bell.py:83-89 | row 18+e gets -foo·t_i/42 in v0's first-derivative columns and the same entry, copied, in v1's; nothing else changes |
| `BellMatrix.WriteEdgeSecondDerivatives` | finat/bell.py:91-107 | row 18+e gets -pel[e]·foo·τ_i/252 in v0's second-derivative columns and pel[e]·foo·τ_i/252 in v1's; nothing else changes |
| `BellMatrix.WriteEdgeRow` | finat/bell.py:59-107 | writes the edge entries of row 18+e, leaves vertex e's columns at 0, and leaves every other row unchanged |
| `BellMatrix.Rescale` | finat/bell.py:109-120 | takes every entry from its assembled value to its scaled value, in all 21 rows |
| `BellMatrix.BasisTransformation` | finat/bell.py:19-122 | the result is 18×21, and its entry (c, r) is the scaled entry V[r, c] |
| `BellProperties.VertexBlockEntries` | finat/bell.py:34-57 | in vertex v's block, the value entry is 1, the first-derivative entry (1+i, 1+j) is J[j, i], and the nine second-derivative entries are the listed quadratic expressions in J |
| `BellProperties.EdgeRowEntries` | finat/bell.py:74-107 | row 18+e has value entries -foo/(21·pel[e]) at v0 and foo/(21·pel[e]) at v1; the same -foo·t_i/42 at both endpoints; and -pel[e]·foo·τ_i/252 at v0 and pel[e]·foo·τ_i/252 at v1 |
| `BellProperties.EndpointAsymmetry` | finat/bell.py:75-107 | the value and second-derivative entries of v0 are v1's with a negated numerator, and the two differ; the first-derivative entries of v0 and v1 are identical and not negated |
| `BellProperties.ZeroExactlyWhereUnwritten` | finat/bell.py:29-107 | before scaling, an entry is the literal 0 if and only if the vertex and edge loops never write it |
| `BellProperties.ScaledWrapsOnce` | finat/bell.py:111-120 | value columns are unchanged; first-derivative columns become old / h[v]; second-derivative columns become old / h[v]²; removing that single division gives the old entry back |
| `BellProperties.HessianReads` | finat/bell.py:40-57 | a second-derivative entry of a vertex block selects Jacobian entries only |
| `BellProperties.BlockReads` | finat/bell.py:34-57 | every entry of a vertex block selects Jacobian entries only |
| `BellProperties.TauReads` | finat/bell.py:92-96 | each tangent monomial of edge e selects only the two components of edge e's tangent |
| `BellProperties.ElementsInBounds` | finat/bell.py:39-107 | the Jacobian entries and the normal, tangent and length elements of edge e that the code indexes all lie within their tensors' extents |
| `BellProperties.FluxReads` | finat/bell.py:63-72 | the flux of edge e selects both components of edge e's normal and tangent, and all four Jacobian entries |
| `BellProperties.EdgeEntryReads` | finat/bell.py:75-107 | an entry of row 18+e selects only Jacobian entries and edge e's normal, tangent and length |
| `BellProperties.AssembledReads` | finat/bell.py:34-107 | before scaling, vertex rows select only the Jacobian; edge row 18+e selects only the Jacobian and edge e's geometry; no entry selects a cell size; every selection is in bounds |
| `BellProperties.ScaledReads` | finat/bell.py:111-120 | scaling adds exactly the one selection h[v] to each derivative column and none to value columns, and every final entry is free of shape errors |
| `BellElement.NewBell` | finat/bell.py:12-14 | construction fails with a ValueError if and only if the degree is not 5, and otherwise yields an element of that degree |
| `BellElement.Range` | finat/bell.py:129-131 | `range(lo, hi)` holds lo..hi-1 in order, and exactly those numbers |
| `BellElement.EntityDofs` | finat/bell.py:128-133 | entity dimensions 0, 1 and 2 have entities {0,1,2}, {0,1,2} and {0}; vertex v owns exactly the dofs 6v..6v+5; every edge and interior group is empty |
| `BellElement.SpaceDimension` | finat/bell.py:139-140 | the dimension equals the number of dofs entity_dofs lists, and the number of columns of V |
| `BellElement.IndexShape` | finat/bell.py:135-137 | the index shape is the single axis (space_dimension,) |
| `BellElement.RangeAppend` | finat/bell.py:129-131 | the consecutive ranges range(a, b) and range(b, c), concatenated, give range(a, c) |
| `BellElement.ListedDofsAreAllOnce` | finat/bell.py:128-140 | listed entity by entity, the dofs are exactly 0..17 in order, each once, so the auxiliary rows 18-20 are hidden |
| `BellElement.VertexDofsPartition` | finat/bell.py:128-133 | each dof below 18 belongs to exactly one vertex, namely the vertex whose block holds that column, and no listed dof reaches rows 18-20 |

## Left out

- The cell argument, `FIAT.Bell(cell)` and the superclass constructor
  (finat/bell.py:17): these are foreign library code. FIAT is not part of
  this model.
- Citation registration (finat/bell.py:15-16) is a side effect with no
  result.
- The coordinate-mapping calls (finat/bell.py:21-27, 109). Their results are
  the opaque tensors `J`, `RNS`, `PTS`, `PEL` and `H`. The evaluation point
  passed to `jacobian_at` is not modelled. The shapes in `Gem.Extents` are
  the ones the code indexes into; the mapping itself is not part of this
  model.
- gem's node constructors are not part of this model. Any constant folding
  they perform when a node is built, such as a zero numerator collapsing a
  `Division`, is not modelled. Every node is recorded exactly as
  `finat/bell.py` calls it.
- Numeric evaluation of the expressions is not modelled. Trees are compared
  structurally. So properties that need arithmetic are not stated, such as
  the effect of scaling the cell size by k.
- numpy's object array is modelled as `array2<Expr>`, and the packed
  transpose as a fresh `seq<seq<Expr>>`. numpy's `.T` is a view that shares
  storage; that sharing is not modelled.
- tests/test_interpreter.py exercises an interpreter unrelated to the Bell
  element and is not modelled.
