# Random DAG and linear structural-equation data generators, modelled in Dafny

The repository's `tools/` directory holds two generators for causal-discovery benchmarks:

- `generate_matrix` (tools/gen_graph.py) samples a random directed acyclic graph over `n` nodes. It returns a
  weight matrix `W` and a matching noise-radius matrix `R`.
  - Only cells strictly above the diagonal can hold an edge.
  - Each candidate edge is present when a `random.random()` draw falls below `p`. It then takes a weight
    `random.uniform(min_weight_value, max_weight_value)`.
  - A second pass gives every nonzero weight a radius `random.uniform(min_noise_radius, max_noise_radius)`.
- `gen_data` (tools/gen_data.py) reads such a pair of matrices and fills a `num_points × num_vars` buffer one
  column at a time.
  - Column 0, and every later column whose weight column is all zero, is a *source*: it holds
    `num_points` uniform draws in `[min_source_val, max_source_val]`.
  - Every other column `j` accumulates, for each `i < j`, `W[i, j] * data[:, i]` plus one scalar
    `numpy.random.normal(0, R[i, j])`. That scalar is added to every row.

The model makes randomness explicit. A stream of draws is a function from the draw position to a real
(`Sampling.Draws`), and every operation threads the position of the next unused draw.

- **sampling.dfy** (module `Sampling`): the draw streams, the uniform transform `a + (b - a) * u`, and
  square matrices.
- **gen_graph.dfy** (module `GenGraph`): `generate_matrix` as pure functions.
  - The two comprehensions become recursive functions over rows and cells. They consume draws in the
    row-major order CPython evaluates them in.
  - `Cell` records which branch the first comprehension took, so the number of draws can be stated.
  - Lemmas give the shape, acyclicity, radius placement, bounds, the extreme values of `p`, and the
    exact number of draws.
- **gen_data.dfy** (module `GenData`): `gen_data` as an imperative method over an `array2<real>`.
  - The method is proved against `Simulate`, a column-by-column specification function.
  - Lemmas about `Simulate` state what the buffer holds.
- **pipeline.dfy** (module `Pipeline`): what the data generator does with a graph that the sampler produced.

## Model

| member | source | states |
|---|---|---|
| Sampling.UniformBetween | tools/gen_graph.py:78 | `uniform(a, b)` applied to a draw in [0, 1] lies between `a` and `b`, in either order of the bounds |
| Sampling.Uniform | tools/gen_graph.py:78 | `random.uniform(a, b)` (also `numpy.random.uniform` at tools/gen_data.py:44-45 and 50-51) maps the unit draw 0 to `a` and 1 to `b`, and gives `a` when the bounds are equal |
| GenGraph.SampleCell | tools/gen_graph.py:76-80 | a cell on or below the diagonal is no edge and takes no draw; above it one presence draw is taken, and a weight draw follows exactly when that presence draw is below `p` |
| GenGraph.SampleRow | tools/gen_graph.py:75-82 | one row of the edge comprehension has `n` cells and never moves the draw position backwards |
| GenGraph.SampleRows | tools/gen_graph.py:73-85 | the edge comprehension has `n` rows of `n` cells |
| GenGraph.Weights | tools/gen_graph.py:73-85 | the weight matrix has the shape of the cell matrix; a present edge contributes its drawn weight and an absent one 0 |
| GenGraph.RadiusCell | tools/gen_graph.py:89-93 | a radius cell takes one draw exactly when it is above the diagonal and its weight is nonzero, and is nonzero only there |
| GenGraph.RadiusRow | tools/gen_graph.py:88-95 | one row of the radius comprehension has `n` entries and never moves the draw position backwards |
| GenGraph.RadiusRows | tools/gen_graph.py:87-97 | the radius comprehension has the shape of the weight matrix |
| GenGraph.GenerateMatrix | tools/gen_graph.py:65-99 | both returned matrices are `n × n` (0 × 0 for a negative `n`, where `range(n)` is empty) |
| GenGraph.UpperCellsClosedForm | tools/gen_graph.py:77 | the number of cells with `i < j` in the first `rows` rows of an `n`-column matrix, in closed form |
| GenGraph.UpperTriangleSize | tools/gen_graph.py:77 | an `n × n` matrix has `n(n-1)/2` cells strictly above the diagonal |
| GenGraph.SampleRowStructure | tools/gen_graph.py:76-81 | in one row, cells on or below the diagonal are absent and consume no draw; the row consumes one presence draw per upper cell plus one weight draw per present edge |
| GenGraph.SampleRowValues | tools/gen_graph.py:78-80 | in one row, a present weight lies between the weight bounds; `p <= 0` gives no edge; `p >= 1` makes every upper cell an edge |
| GenGraph.SampleRowsStructure | tools/gen_graph.py:73-85 | over all rows: nothing on or below the diagonal, and the draw count is the number of upper cells plus the number of present edges |
| GenGraph.SampleRowsValues | tools/gen_graph.py:73-85 | over all rows: the cell law of `SampleRowValues` holds at every cell |
| GenGraph.RadiusRowStructure | tools/gen_graph.py:89-94 | in one row, the radius is 0 on or below the diagonal and wherever the weight is 0; when the weights on or below the diagonal are 0, the row takes one draw per nonzero weight |
| GenGraph.RadiusRowValues | tools/gen_graph.py:91-92 | in one row, the radius of a nonzero upper weight lies between the radius bounds |
| GenGraph.RadiusRowsStructure | tools/gen_graph.py:87-97 | over all rows: the radius is 0 on or below the diagonal and wherever the weight is 0; when the weights on or below the diagonal are 0, one draw is taken per nonzero weight |
| GenGraph.RadiusPassDraws | tools/gen_graph.py:87-97 | for a weight matrix with nothing on or below the diagonal, the radius pass takes exactly one draw per nonzero weight |
| GenGraph.RadiusRowsValues | tools/gen_graph.py:87-97 | over all rows: every radius of a nonzero upper weight lies between the radius bounds |
| GenGraph.Triangular | tools/gen_graph.py:77 | `W[i][j] == 0` and `R[i][j] == 0` for every `i >= j`, so the graph has no self-loop and no back edge (the radius half is line 90) |
| GenGraph.RadiusOnlyOnEdges | tools/gen_graph.py:91-93 | a nonzero radius sits only where the weight is nonzero |
| GenGraph.ZeroWeightEdgeHasNoRadius | tools/gen_graph.py:91-93 | a present edge whose uniform weight came out exactly 0 has weight 0 and radius 0 |
| GenGraph.NoEdgesWhenNeverPresent | tools/gen_graph.py:79-80 | with unit draws and `p <= 0`, `W` and `R` are all zero (the `R` half is lines 92-93) |
| GenGraph.EveryEdgeWhenAlwaysPresent | tools/gen_graph.py:78-79 | with `p >= 1` and `min_w == max_w == c`, every cell above the diagonal holds `c` |
| GenGraph.ValuesWithinBounds | tools/gen_graph.py:78 | with unit draws, every nonzero weight lies between the weight bounds and its radius between the radius bounds (the radius half is line 91) |
| GenGraph.DrawsConsumed | tools/gen_graph.py:73-97 | the call consumes `n(n-1)/2` presence draws, one weight draw per present edge, and one radius draw per nonzero weight |
| GenData.Normal | tools/gen_data.py:57 | `numpy.random.normal(0, scale)` for a standard normal draw: a scale of 0 gives exactly 0 |
| GenData.ZeroColumn | tools/gen_data.py:49 | `np.all(weights[:, j] == 0)`: a zero column has no weight from any earlier node, and any nonzero entry in the column makes it false |
| GenData.IsSource | tools/gen_data.py:44 | column 0 is always a source (line 44), and a later column is one only when line 49 finds it all zero; a source column has no weighted parent |
| GenData.EdgeSum | tools/gen_data.py:56-57 | the first `i` passes of the inner loop at row `r`: when none of them has a nonzero weight or radius the column stays 0 |
| GenData.SourceColumn | tools/gen_data.py:44-46 | a source column has `num_points` entries |
| GenData.Simulate | tools/gen_data.py:43-57 | after `count` columns are filled there are `count` columns of `num_points` rows each |
| GenData.ScalesValidStep | tools/gen_data.py:47-57 | filling column `j` without a negative radius extends the radius check by exactly that column's incoming radii, unless the column is a source |
| GenData.Grid | tools/gen_data.py:39 | the matrix read from a 2-D array has its shape and its entries |
| GenData.IsZeroColumn | tools/gen_data.py:49 | `np.all(weights[:, j] == 0)`: true exactly when every row of column `j` is 0 |
| GenData.FillSource | tools/gen_data.py:50-52 | column `j` becomes the next `num_points` uniform draws; no other entry changes |
| GenData.AddEdgeTerm | tools/gen_data.py:57 | every row of column `j` gains `w * data[r, i] + e`; no other column changes |
| GenData.FillEdgeColumn | tools/gen_data.py:56-57 | the inner loop: column `j` becomes the `EdgeSum` of its `j` incoming terms and exactly `j` normal draws are taken; it stops exactly when some `R[i][j] < 0`, where numpy raises; other columns are unchanged |
| GenData.ColumnsFinal | tools/gen_data.py:47-57 | once column `c` is filled it is never written again: the first `c` columns after any later step are those after step `c` |
| GenData.FillColumn | tools/gen_data.py:44-57 | one pass of the outer loop (or the fill of column 0) advances the buffer and both draw positions from `Simulate(j)` to `Simulate(j + 1)`, leaving later columns unchanged |
| GenData.FillColumns | tools/gen_data.py:43-57 | the outer loop fills every column as `Simulate` says, and succeeds exactly when no radius numpy is asked for is negative |
| GenData.GenData | tools/gen_data.py:38-59 | the buffer is a newly allocated `num_points × num_vars` array; it fails exactly when a radius passed to numpy is negative; otherwise every entry and both draw positions match `Simulate` |
| GenData.FinalColumn | tools/gen_data.py:47-57 | column `j` of the finished buffer is the value written by the pass for column `j` |
| GenData.EarlierColumnsFinal | tools/gen_data.py:47-57 | columns before `j` in the finished buffer are exactly those present when column `j` is filled, so column `j` reads only final values |
| GenData.SourceColumnDraws | tools/gen_data.py:49-53 | a source column holds the next `num_points` uniform draws and consumes no normal draw |
| GenData.FirstColumnIsSource | tools/gen_data.py:44-46 | column 0 holds the first `num_points` uniform draws, whatever the weight matrix holds |
| GenData.ZeroColumnIsSource | tools/gen_data.py:49-53 | a later column whose weight column is all zero holds the next `num_points` uniform draws and consumes no normal draw |
| GenData.SourceValuesWithinBounds | tools/gen_data.py:44-52 | with unit draws, every value of a source column lies between `min_source_val` and `max_source_val` |
| GenData.EdgeSumSplits | tools/gen_data.py:56-57 | the accumulated column splits into the weighted sum of earlier columns plus the sum of the noise scalars |
| GenData.LinearSumAgrees | tools/gen_data.py:57 | the weighted sum reads earlier columns only at the row in question |
| GenData.EdgeColumnValues | tools/gen_data.py:56-57 | for a non-source column `j` and every row `k`, `data[k][j] = Σ_{i<j} W[i][j] * data[k][i] + Σ_{i<j} e_ij`, with one noise draw `e_ij` per edge |
| GenData.NoiseSharedByAllRows | tools/gen_data.py:57 | in a non-source column, the value minus the weighted sum of earlier columns is the same at every row: the noise is one scalar per edge, broadcast to all rows |
| GenData.NoiseSumZero | tools/gen_data.py:57 | `numpy.random.normal(0, 0)` adds nothing: zero radii give zero total noise |
| GenData.NoiselessColumnIsLinear | tools/gen_data.py:57 | with radius 0 on every edge into a non-source column, the column is exactly `Σ_{i<j} W[i][j] * data[:, i]` |
| GenData.EdgeSumAgrees | tools/gen_data.py:56-57 | the accumulation reads only weights above the diagonal of column `j` |
| GenData.LowerWeightsUnread | tools/gen_data.py:49 | weights on or below the diagonal matter only through the source test of line 49: with the same upper weights and the same sources, the data are identical (the accumulation of lines 56-57 never reads them) |
| GenData.ChainExample | tools/gen_data.py:44-57 | for the chain 0 → 1 → 2 with weights 2 and 3 and radii 0 and 0.01: column 1 is exactly twice column 0, and column 2 is three times column 1 plus 0.01 times the third normal draw |
| Pipeline.GeneratedRadiiAccepted | tools/gen_data.py:57 | a graph from `generate_matrix` with non-negative radius bounds never makes `gen_data` pass a negative scale to `numpy.random.normal` |
| Pipeline.GeneratedSourcesHaveNoParent | tools/gen_data.py:49 | for a generated graph, the whole-column source test picks exactly the nodes with no edge from an earlier node |

## Left out

- `main` in both tools is not part of this model. That covers argument parsing, CLI defaults, and loading the
  matrices with `np.loadtxt`. `Args` carries only the three values `gen_data` reads, and the matrices are
  given arrays.
- `save_matrix` and `save_data` are not part of this model. They only handle timestamps, directory creation,
  and CSV/NPY/JSON writing.
- Distributions are not modelled. A draw is an opaque real, and `UnitDraws` assumes only that it lies in
  [0, 1). The one distributional fact used is that `normal(0, scale)` is `scale * g` for a standard normal draw
  `g`, so a radius of 0 gives exactly 0.
- Floating point is not modelled: arithmetic is exact `real` arithmetic.
- GenData.GenData: numpy's single global generator serves both uniform and normal draws. The model gives
  `gen_data` two separate streams, `u` for the unit draws behind `uniform` and `z` for the standard normal
  draws behind `normal`, so their interleaving in the underlying generator is not modelled. Neither is the
  number of raw draws a normal draw costs.
- GenData.GenData: non-square or unequally shaped `weights`/`noise` arrays, which numpy might index without
  error, are excluded by the precondition. `num_vars = 0`, where line 44 raises an `IndexError`, is excluded
  the same way.
- GenData.GenData: a negative `num_points`, where `np.zeros` at tools/gen_data.py:43 raises `ValueError`, is
  excluded by the `nat` type of `Args.numPoints`.
- GenData.GenData: the `ValueError` numpy raises on a negative radius is modelled as `ok == false`. The
  partially filled buffer is then not specified beyond its shape.
- Numpy's column slices and broadcasting are modelled as explicit loops over rows.
- Whether `generate_matrix` returns a numpy array or a Python list does not matter here: both are a
  `Matrix` of reals.
- GenGraph.GenerateMatrix: an `n` of the wrong type, or a non-numeric `p`, is not modelled. A negative `n`
  gives empty matrices, as `range(n)` does.

## Notes

- The code draws one noise scalar per incoming candidate edge, shared by every row of the column
  (tools/gen_data.py:57 calls `numpy.random.normal` without a size). A description of the generator as
  drawing independent noise for each data point would differ; the model follows the code.
- In the source, a present edge whose uniform weight comes out exactly 0 (for instance `random.uniform(-10, 10)`
  with a unit draw of 0.5) has already used its weight draw, and line 92 of tools/gen_graph.py then gives it
  radius 0. The model does the same: `SampleCell` counts the draw and `ZeroWeightEdgeHasNoRadius` shows `W`
  and `R` both 0 for that cell.
- `ScalesValid` checks radii only for columns that are not sources. Source columns never call
  `numpy.random.normal`, so a negative radius there is never seen.
