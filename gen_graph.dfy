// The random DAG sampler: `generate_matrix` builds an n-by-n matrix of edge
// weights and a matching matrix of noise radii with two nested comprehensions,
// taking draws of `random.random()` in row-major order. Here the draws are an
// explicit stream and every comprehension threads the position of the next draw.

module GenGraph {
  import opened Sampling

  /** Which branch the weight comprehension took at one cell: the presence test failed
    * (or the cell is on or below the diagonal), or it passed and a weight was drawn. */
  datatype Cell = NoEdge | Edge(weight: real)

  /** A value together with the position of the next unused draw. */
  datatype Drawn<T> = Drawn(value: T, next: nat)

  /** The result of `generate_matrix`: the two matrices and how far the draw stream advanced. */
  datatype Graph = Graph(weights: Matrix, radii: Matrix, next: nat)

  /** `range(n)` is empty for a negative `n`, so the matrices have `max(n, 0)` rows. */
  function Size(n: int): nat
  {
    if n < 0 then 0 else n
  }

  /** The entry the weight comprehension stores for a cell: 0 unless a weight was drawn. */
  function WeightOf(c: Cell): real
  {
    if c.Edge? then c.weight else 0.0
  }

  // ---------------------------------------------------------------------------
  // First pass: edge presence and weights

  /** Cell (i, j) of the weight comprehension, drawing from position `k` on: nothing on or
    * below the diagonal; above it one presence draw and, when it is below `p`, one weight draw. */
  function SampleCell(i: nat, j: nat, p: real, minW: real, maxW: real, d: Draws, k: nat): (r: Drawn<Cell>)
    ensures i >= j ==> r.value == NoEdge
    ensures r.next == k + (if i < j then 1 else 0) + (if r.value.Edge? then 1 else 0)
    ensures r.value.Edge? <==> i < j && d(k) < p
  {
    if i >= j then Drawn(NoEdge, k)
    else if d(k) < p then Drawn(Edge(Uniform(minW, maxW, d(k + 1))), k + 2)
    else Drawn(NoEdge, k + 1)
  }

  /** Cells (i, 0), ..., (i, cols - 1) of row i, sampled left to right. */
  function SampleRow(i: nat, cols: nat, p: real, minW: real, maxW: real, d: Draws, k: nat): (r: Drawn<seq<Cell>>)
    ensures |r.value| == cols && r.next >= k
  {
    if cols == 0 then Drawn([], k)
    else
      var front := SampleRow(i, cols - 1, p, minW, maxW, d, k);
      var c := SampleCell(i, cols - 1, p, minW, maxW, d, front.next);
      Drawn(front.value + [c.value], c.next)
  }

  /** Rows 0, ..., rows - 1 of the n-column weight comprehension, sampled top to bottom. */
  function SampleRows(n: nat, rows: nat, p: real, minW: real, maxW: real, d: Draws, k: nat): (r: Drawn<seq<seq<Cell>>>)
    ensures |r.value| == rows && r.next >= k
    ensures forall i :: 0 <= i < rows ==> |r.value[i]| == n
  {
    if rows == 0 then Drawn([], k)
    else
      var front := SampleRows(n, rows - 1, p, minW, maxW, d, k);
      var row := SampleRow(rows - 1, n, p, minW, maxW, d, front.next);
      Drawn(front.value + [row.value], row.next)
  }

  /** The numeric matrix of a grid of cells. */
  function Weights(cells: seq<seq<Cell>>): (w: Matrix)
    ensures |w| == |cells|
    ensures forall i :: 0 <= i < |w| ==> |w[i]| == |cells[i]|
    ensures forall i, j :: 0 <= i < |w| && 0 <= j < |w[i]| ==> w[i][j] == WeightOf(cells[i][j])
  {
    seq(|cells|, i requires 0 <= i < |cells| =>
      seq(|cells[i]|, j requires 0 <= j < |cells[i]| => WeightOf(cells[i][j])))
  }

  // ---------------------------------------------------------------------------
  // Second pass: noise radii

  /** Cell (i, j) of the radius comprehension for weight `w`: one draw exactly when the cell
    * is above the diagonal and its weight is nonzero. */
  function RadiusCell(w: real, i: nat, j: nat, minR: real, maxR: real, d: Draws, k: nat): (r: Drawn<real>)
    ensures r.next == k + (if i < j && w != 0.0 then 1 else 0)
    ensures r.value != 0.0 ==> i < j && w != 0.0
  {
    if i >= j then Drawn(0.0, k)
    else if w != 0.0 then Drawn(Uniform(minR, maxR, d(k)), k + 1)
    else Drawn(0.0, k)
  }

  /** Radii (i, 0), ..., (i, cols - 1) for the weight row `wrow`, left to right. */
  function RadiusRow(wrow: seq<real>, i: nat, cols: nat, minR: real, maxR: real, d: Draws, k: nat): (r: Drawn<seq<real>>)
    requires cols <= |wrow|
    ensures |r.value| == cols && r.next >= k
  {
    if cols == 0 then Drawn([], k)
    else
      var front := RadiusRow(wrow, i, cols - 1, minR, maxR, d, k);
      var c := RadiusCell(wrow[cols - 1], i, cols - 1, minR, maxR, d, front.next);
      Drawn(front.value + [c.value], c.next)
  }

  /** Radius rows 0, ..., rows - 1 for the weight matrix `w`, top to bottom. */
  function RadiusRows(w: Matrix, rows: nat, minR: real, maxR: real, d: Draws, k: nat): (r: Drawn<Matrix>)
    requires rows <= |w|
    ensures |r.value| == rows && r.next >= k
    ensures forall i :: 0 <= i < rows ==> |r.value[i]| == |w[i]|
  {
    if rows == 0 then Drawn([], k)
    else
      var front := RadiusRows(w, rows - 1, minR, maxR, d, k);
      var row := RadiusRow(w[rows - 1], rows - 1, |w[rows - 1]|, minR, maxR, d, front.next);
      Drawn(front.value + [row.value], row.next)
  }

  // ---------------------------------------------------------------------------
  // generate_matrix

  /** The cells the weight comprehension visits, with the position after its last draw. */
  function EdgeCells(n: int, p: real, minW: real, maxW: real, d: Draws): Drawn<seq<seq<Cell>>>
  {
    SampleRows(Size(n), Size(n), p, minW, maxW, d, 0)
  }

  /** `generate_matrix(n, p, min_weight_value, max_weight_value, min_noise_radius,
    * max_noise_radius)` reading its draws from `d`, starting at position 0.
    * Both matrices are n-by-n (empty when n <= 0). */
  function GenerateMatrix(n: int, p: real, minW: real, maxW: real, minR: real, maxR: real, d: Draws): (g: Graph)
    ensures Square(g.weights, Size(n)) && Square(g.radii, Size(n))
  {
    var cells := EdgeCells(n, p, minW, maxW, d);
    var w := Weights(cells.value);
    var r := RadiusRows(w, Size(n), minR, maxR, d, cells.next);
    Graph(w, r.value, r.next)
  }

  // ---------------------------------------------------------------------------
  // Counting

  /** Every entry on or below the diagonal is 0. */
  ghost predicate StrictlyUpper(w: Matrix)
  {
    forall i, j :: 0 <= i < |w| && 0 <= j < |w[i]| && j <= i ==> w[i][j] == 0.0
  }

  /** The number of cells in `cs` where a weight was drawn. */
  function CountEdges(cs: seq<Cell>): nat
  {
    if cs == [] then 0
    else CountEdges(cs[..|cs| - 1]) + (if cs[|cs| - 1].Edge? then 1 else 0)
  }

  /** The number of cells in a grid where a weight was drawn. */
  function TotalEdges(cells: seq<seq<Cell>>): nat
  {
    if cells == [] then 0
    else TotalEdges(cells[..|cells| - 1]) + CountEdges(cells[|cells| - 1])
  }

  /** The number of nonzero entries of a row. */
  function CountNonZero(xs: seq<real>): nat
  {
    if xs == [] then 0
    else CountNonZero(xs[..|xs| - 1]) + (if xs[|xs| - 1] != 0.0 then 1 else 0)
  }

  /** The number of nonzero entries of a matrix. */
  function TotalNonZero(m: Matrix): nat
  {
    if m == [] then 0
    else TotalNonZero(m[..|m| - 1]) + CountNonZero(m[|m| - 1])
  }

  /** The number of columns j < cols strictly right of the diagonal in row i. */
  function UpperCount(i: nat, cols: nat): nat
  {
    if cols <= i + 1 then 0 else cols - i - 1
  }

  /** The number of cells strictly above the diagonal in rows 0, ..., rows - 1 of an n-column grid. */
  function UpperCells(rows: nat, n: nat): nat
  {
    if rows == 0 then 0 else UpperCells(rows - 1, n) + UpperCount(rows - 1, n)
  }

  lemma {:induction false} UpperCellsClosedForm(rows: nat, n: nat)
    requires rows <= n
    ensures 2 * UpperCells(rows, n) == rows * (2 * n - rows - 1)
  {
    if rows > 0 {
      UpperCellsClosedForm(rows - 1, n);
      calc {
        2 * UpperCells(rows, n);
        2 * UpperCells(rows - 1, n) + 2 * (n - rows);
        (rows - 1) * (2 * n - rows) + 2 * (n - rows);
        rows * (2 * n - rows - 1);
      }
    }
  }

  /** A square grid of n nodes has n(n-1)/2 cells strictly above its diagonal. */
  lemma UpperTriangleSize(n: nat)
    ensures UpperCells(n, n) == n * (n - 1) / 2
  {
    UpperCellsClosedForm(n, n);
  }

  // ---------------------------------------------------------------------------
  // The first pass, row by row

  /** Along one row, nothing is drawn on or left of the diagonal, and the draws taken are
    * one per cell right of it plus one per drawn weight. */
  lemma {:induction false} SampleRowStructure(i: nat, cols: nat, p: real, minW: real, maxW: real, d: Draws, k: nat)
    ensures (forall j :: 0 <= j < cols && j <= i ==> SampleRow(i, cols, p, minW, maxW, d, k).value[j] == NoEdge) &&
      SampleRow(i, cols, p, minW, maxW, d, k).next == k + UpperCount(i, cols) + CountEdges(SampleRow(i, cols, p, minW, maxW, d, k).value)
  {
    if cols > 0 {
      SampleRowStructure(i, cols - 1, p, minW, maxW, d, k);
      var r := SampleRow(i, cols, p, minW, maxW, d, k);
      var front := SampleRow(i, cols - 1, p, minW, maxW, d, k);
      assert r.value[..cols - 1] == front.value;
    }
  }

  /** What a single cell's value obeys when every draw lies in [0, 1): a drawn weight lies
    * between the weight bounds, `p <= 0` admits no edge, `p >= 1` admits every upper cell. */
  ghost predicate CellLaw(i: nat, j: nat, p: real, minW: real, maxW: real, c: Cell)
  {
    (c.Edge? ==> Between(minW, maxW, c.weight)) &&
    (p <= 0.0 ==> c == NoEdge) &&
    (p >= 1.0 && i < j ==> c.Edge?)
  }

  lemma {:induction false} SampleRowValues(i: nat, cols: nat, p: real, minW: real, maxW: real, d: Draws, k: nat)
    requires UnitDraws(d)
    ensures forall j :: 0 <= j < cols ==> CellLaw(i, j, p, minW, maxW, SampleRow(i, cols, p, minW, maxW, d, k).value[j])
  {
    if cols > 0 {
      SampleRowValues(i, cols - 1, p, minW, maxW, d, k);
      var front := SampleRow(i, cols - 1, p, minW, maxW, d, k);
      var c := SampleCell(i, cols - 1, p, minW, maxW, d, front.next);
      if i < cols - 1 && d(front.next) < p {
        UniformBetween(minW, maxW, d(front.next + 1));
      }
      assert CellLaw(i, cols - 1, p, minW, maxW, c.value);
      var r := SampleRow(i, cols, p, minW, maxW, d, k);
      assert forall j :: 0 <= j < cols - 1 ==> r.value[j] == front.value[j];
    }
  }

  // ---------------------------------------------------------------------------
  // The first pass, the whole grid

  lemma {:induction false} SampleRowsStructure(n: nat, rows: nat, p: real, minW: real, maxW: real, d: Draws, k: nat)
    ensures (forall i, j :: 0 <= i < rows && 0 <= j < n && j <= i ==> SampleRows(n, rows, p, minW, maxW, d, k).value[i][j] == NoEdge) &&
      SampleRows(n, rows, p, minW, maxW, d, k).next == k + UpperCells(rows, n) + TotalEdges(SampleRows(n, rows, p, minW, maxW, d, k).value)
  {
    if rows > 0 {
      SampleRowsStructure(n, rows - 1, p, minW, maxW, d, k);
      var r := SampleRows(n, rows, p, minW, maxW, d, k);
      var front := SampleRows(n, rows - 1, p, minW, maxW, d, k);
      SampleRowStructure(rows - 1, n, p, minW, maxW, d, front.next);
      assert r.value[..rows - 1] == front.value;
    }
  }

  lemma {:induction false} SampleRowsValues(n: nat, rows: nat, p: real, minW: real, maxW: real, d: Draws, k: nat)
    requires UnitDraws(d)
    ensures forall i, j :: 0 <= i < rows && 0 <= j < n ==> CellLaw(i, j, p, minW, maxW, SampleRows(n, rows, p, minW, maxW, d, k).value[i][j])
  {
    if rows > 0 {
      SampleRowsValues(n, rows - 1, p, minW, maxW, d, k);
      var front := SampleRows(n, rows - 1, p, minW, maxW, d, k);
      SampleRowValues(rows - 1, n, p, minW, maxW, d, front.next);
      var r := SampleRows(n, rows, p, minW, maxW, d, k);
      assert forall i :: 0 <= i < rows - 1 ==> r.value[i] == front.value[i];
    }
  }

  // ---------------------------------------------------------------------------
  // The second pass

  /** Along one radius row, a radius is 0 wherever the cell is on or left of the diagonal or
    * its weight is 0; when the row's weights are 0 up to the diagonal, one draw is taken per
    * nonzero weight. */
  lemma {:induction false} RadiusRowStructure(wrow: seq<real>, i: nat, cols: nat, minR: real, maxR: real, d: Draws, k: nat)
    requires cols <= |wrow|
    ensures (forall j :: 0 <= j < cols && (j <= i || wrow[j] == 0.0) ==> RadiusRow(wrow, i, cols, minR, maxR, d, k).value[j] == 0.0) &&
      ((forall j :: 0 <= j < cols && j <= i ==> wrow[j] == 0.0) ==> RadiusRow(wrow, i, cols, minR, maxR, d, k).next == k + CountNonZero(wrow[..cols]))
  {
    if cols > 0 {
      RadiusRowStructure(wrow, i, cols - 1, minR, maxR, d, k);
      assert wrow[..cols][..cols - 1] == wrow[..cols - 1];
    }
  }

  lemma {:induction false} RadiusRowValues(wrow: seq<real>, i: nat, cols: nat, minR: real, maxR: real, d: Draws, k: nat)
    requires cols <= |wrow|
    requires UnitDraws(d)
    ensures forall j :: 0 <= j < cols && i < j && wrow[j] != 0.0 ==> Between(minR, maxR, RadiusRow(wrow, i, cols, minR, maxR, d, k).value[j])
  {
    if cols > 0 {
      RadiusRowValues(wrow, i, cols - 1, minR, maxR, d, k);
      var front := RadiusRow(wrow, i, cols - 1, minR, maxR, d, k);
      UniformBetween(minR, maxR, d(front.next));
    }
  }

  lemma {:induction false} RadiusRowsStructure(w: Matrix, rows: nat, minR: real, maxR: real, d: Draws, k: nat)
    requires rows <= |w|
    ensures (forall i, j :: 0 <= i < rows && 0 <= j < |w[i]| && (j <= i || w[i][j] == 0.0) ==> RadiusRows(w, rows, minR, maxR, d, k).value[i][j] == 0.0) &&
      ((forall i, j :: 0 <= i < rows && 0 <= j < |w[i]| && j <= i ==> w[i][j] == 0.0) ==>
        RadiusRows(w, rows, minR, maxR, d, k).next == k + TotalNonZero(w[..rows]))
  {
    if rows > 0 {
      RadiusRowsStructure(w, rows - 1, minR, maxR, d, k);
      var front := RadiusRows(w, rows - 1, minR, maxR, d, k);
      var wrow := w[rows - 1];
      RadiusRowStructure(wrow, rows - 1, |wrow|, minR, maxR, d, front.next);
      assert wrow[..|wrow|] == wrow;
      assert w[..rows][..rows - 1] == w[..rows - 1];
    }
  }

  /** Over a whole weight matrix that is 0 on and below its diagonal, the radius pass takes
    * exactly one draw per nonzero weight. */
  lemma RadiusPassDraws(w: Matrix, minR: real, maxR: real, d: Draws, k: nat)
    requires StrictlyUpper(w)
    ensures RadiusRows(w, |w|, minR, maxR, d, k).next == k + TotalNonZero(w)
  {
    RadiusRowsStructure(w, |w|, minR, maxR, d, k);
    assert w[..|w|] == w;
  }

  lemma {:induction false} RadiusRowsValues(w: Matrix, rows: nat, minR: real, maxR: real, d: Draws, k: nat)
    requires rows <= |w|
    requires UnitDraws(d)
    ensures forall i, j :: 0 <= i < rows && 0 <= j < |w[i]| && i < j && w[i][j] != 0.0 ==> Between(minR, maxR, RadiusRows(w, rows, minR, maxR, d, k).value[i][j])
  {
    if rows > 0 {
      RadiusRowsValues(w, rows - 1, minR, maxR, d, k);
      var front := RadiusRows(w, rows - 1, minR, maxR, d, k);
      RadiusRowValues(w[rows - 1], rows - 1, |w[rows - 1]|, minR, maxR, d, front.next);
    }
  }

  // ---------------------------------------------------------------------------
  // Properties of generate_matrix

  /** No self-loops and no back-edges: every weight and every radius on or below the
    * diagonal is 0, so the weights describe a DAG in the order 0, ..., n-1. */
  lemma Triangular(n: int, p: real, minW: real, maxW: real, minR: real, maxR: real, d: Draws, g: Graph)
    requires g == GenerateMatrix(n, p, minW, maxW, minR, maxR, d)
    ensures forall i, j :: 0 <= j <= i < Size(n) ==> g.weights[i][j] == 0.0 && g.radii[i][j] == 0.0
  {
    var cells := EdgeCells(n, p, minW, maxW, d);
    SampleRowsStructure(Size(n), Size(n), p, minW, maxW, d, 0);
    RadiusRowsStructure(Weights(cells.value), Size(n), minR, maxR, d, cells.next);
  }

  /** Noise only where there is an edge: a nonzero radius sits on a nonzero weight. */
  lemma RadiusOnlyOnEdges(n: int, p: real, minW: real, maxW: real, minR: real, maxR: real, d: Draws, g: Graph)
    requires g == GenerateMatrix(n, p, minW, maxW, minR, maxR, d)
    ensures forall i, j :: 0 <= i < Size(n) && 0 <= j < Size(n) && g.radii[i][j] != 0.0 ==> g.weights[i][j] != 0.0
  {
    var cells := EdgeCells(n, p, minW, maxW, d);
    RadiusRowsStructure(Weights(cells.value), Size(n), minR, maxR, d, cells.next);
  }

  /** A weight drawn as exactly 0 is an edge for the first pass but gets radius 0 in the
    * second: it is indistinguishable from an absent edge. */
  lemma ZeroWeightEdgeHasNoRadius(n: int, p: real, minW: real, maxW: real, minR: real, maxR: real, d: Draws, g: Graph, i: nat, j: nat)
    requires g == GenerateMatrix(n, p, minW, maxW, minR, maxR, d)
    requires i < Size(n) && j < Size(n)
    requires EdgeCells(n, p, minW, maxW, d).value[i][j] == Edge(0.0)
    ensures g.weights[i][j] == 0.0 && g.radii[i][j] == 0.0
  {
    RadiusOnlyOnEdges(n, p, minW, maxW, minR, maxR, d, g);
  }

  /** With p <= 0 every presence test `random() < p` fails: no edges and no noise. */
  lemma NoEdgesWhenNeverPresent(n: int, p: real, minW: real, maxW: real, minR: real, maxR: real, d: Draws, g: Graph)
    requires g == GenerateMatrix(n, p, minW, maxW, minR, maxR, d)
    requires UnitDraws(d) && p <= 0.0
    ensures forall i, j :: 0 <= i < Size(n) && 0 <= j < Size(n) ==> g.weights[i][j] == 0.0 && g.radii[i][j] == 0.0
  {
    var cells := EdgeCells(n, p, minW, maxW, d);
    SampleRowsValues(Size(n), Size(n), p, minW, maxW, d, 0);
    RadiusRowsStructure(Weights(cells.value), Size(n), minR, maxR, d, cells.next);
  }

  /** With p >= 1 every presence test passes, so with both weight bounds equal to c every
    * cell above the diagonal holds c. */
  lemma EveryEdgeWhenAlwaysPresent(n: int, p: real, c: real, minR: real, maxR: real, d: Draws, g: Graph)
    requires g == GenerateMatrix(n, p, c, c, minR, maxR, d)
    requires UnitDraws(d) && p >= 1.0
    ensures forall i, j :: 0 <= i < j < Size(n) ==> g.weights[i][j] == c
  {
    SampleRowsValues(Size(n), Size(n), p, c, c, d, 0);
  }

  /** Every nonzero weight lies between the weight bounds, and every radius on a nonzero
    * weight lies between the radius bounds. */
  lemma ValuesWithinBounds(n: int, p: real, minW: real, maxW: real, minR: real, maxR: real, d: Draws, g: Graph)
    requires g == GenerateMatrix(n, p, minW, maxW, minR, maxR, d)
    requires UnitDraws(d)
    ensures forall i, j :: 0 <= i < Size(n) && 0 <= j < Size(n) && g.weights[i][j] != 0.0 ==>
      Between(minW, maxW, g.weights[i][j]) && Between(minR, maxR, g.radii[i][j])
  {
    var cells := EdgeCells(n, p, minW, maxW, d);
    SampleRowsValues(Size(n), Size(n), p, minW, maxW, d, 0);
    RadiusRowsValues(Weights(cells.value), Size(n), minR, maxR, d, cells.next);
    Triangular(n, p, minW, maxW, minR, maxR, d, g);
  }

  /** The draws consumed: n(n-1)/2 presence tests, one weight per edge found present, and
    * one radius per nonzero weight. */
  lemma DrawsConsumed(n: int, p: real, minW: real, maxW: real, minR: real, maxR: real, d: Draws, g: Graph)
    requires g == GenerateMatrix(n, p, minW, maxW, minR, maxR, d)
    ensures g.next == Size(n) * (Size(n) - 1) / 2 + TotalEdges(EdgeCells(n, p, minW, maxW, d).value) + TotalNonZero(g.weights)
  {
    var size: int := Size(n);
    var cells := EdgeCells(n, p, minW, maxW, d);
    var w := Weights(cells.value);
    assert cells.next == UpperCells(size, size) + TotalEdges(cells.value) && StrictlyUpper(w) by {
      SampleRowsStructure(size, size, p, minW, maxW, d, 0);
    }
    assert g.next == cells.next + TotalNonZero(w) by {
      RadiusPassDraws(w, minR, maxR, d, cells.next);
    }
    assert UpperCells(size, size) == size * (size - 1) / 2 by {
      UpperTriangleSize(size);
    }
  }
}
