// The linear structural-equation data generator: `gen_data` allocates a
// zero-filled num_points-by-num_vars buffer and fills it one column at a time,
// left to right. A column is either a source (uniform draws) or the sum, over
// every earlier node i, of weight[i][j] times column i plus one normal noise
// scalar for edge (i, j), shared by every row.
//
// Randomness is explicit: `u` holds the unit draws behind numpy's uniform
// sampler, `z` the standard normal draws behind `numpy.random.normal`, each
// consumed in the order the code asks for them.

module GenData {
  import opened Sampling

  /** The command-line values `gen_data` reads from its argument namespace. */
  datatype Args = Args(numPoints: nat, minSourceVal: real, maxSourceVal: real)

  /** The scalar `numpy.random.normal(0, scale)` returns for the standard normal draw `g`:
    * numpy computes `0 + scale * g`, so a scale of 0 yields exactly 0. */
  function Normal(scale: real, g: real): (e: real)
    ensures scale == 0.0 ==> e == 0.0
  {
    scale * g
  }

  /** Weights and radii are square matrices of the same size. */
  predicate Shaped(W: Matrix, R: Matrix)
  {
    Square(W, |W|) && Square(R, |W|)
  }

  /** `np.all(weights[:, j] == 0)`: no row of column j carries a weight. */
  predicate ZeroColumn(W: Matrix, j: nat): (z: bool)
    requires Square(W, |W|) && j < |W|
    ensures z ==> forall i :: 0 <= i < j ==> W[i][j] == 0.0
    ensures (exists i :: 0 <= i < |W| && W[i][j] != 0.0) ==> !z
  {
    forall i :: 0 <= i < |W| ==> W[i][j] == 0.0
  }

  /** Column j is filled with source draws: column 0 always, any other one when its weight column is all 0. */
  predicate IsSource(W: Matrix, j: nat): (s: bool)
    requires Square(W, |W|) && j < |W|
    ensures j == 0 ==> s
    ensures s ==> forall i :: 0 <= i < j ==> W[i][j] == 0.0
  {
    j == 0 || ZeroColumn(W, j)
  }

  /** `numpy.random.uniform(min_source_val, max_source_val, num_points)` from the unit draws at
    * positions k, ..., k + num_points - 1. */
  function SourceColumn(args: Args, u: Draws, k: nat): (c: seq<real>)
    ensures |c| == args.numPoints
  {
    seq(args.numPoints, r requires 0 <= r < args.numPoints => Uniform(args.minSourceVal, args.maxSourceVal, u(k + r)))
  }

  /** Every column of `cols` has `m` rows. */
  predicate Columns(cols: seq<seq<real>>, m: nat)
  {
    forall t :: 0 <= t < |cols| ==> |cols[t]| == m
  }

  /** Row r of column j after the first i passes of the inner loop, whose pass i' adds
    * `W[i'][j] * cols[i'][r]` and the noise scalar drawn for edge (i', j) at position kz + i'. */
  function EdgeSum(W: Matrix, R: Matrix, cols: seq<seq<real>>, j: nat, r: nat, z: Draws, kz: nat, i: nat): (s: real)
    requires Shaped(W, R) && i <= j < |W| && i <= |cols|
    requires forall t :: 0 <= t < i ==> r < |cols[t]|
    ensures (forall t :: 0 <= t < i ==> W[t][j] == 0.0 && R[t][j] == 0.0) ==> s == 0.0
    decreases i
  {
    if i == 0 then 0.0
    else EdgeSum(W, R, cols, j, r, z, kz, i - 1) + (W[i - 1][j] * cols[i - 1][r] + Normal(R[i - 1][j], z(kz + i - 1)))
  }

  /** The columns filled so far and the positions of the next unused draw in each stream. */
  datatype Fill = Fill(cols: seq<seq<real>>, nextU: nat, nextZ: nat)

  /** The buffer after columns 0, ..., count - 1 have been filled. A source column takes
    * num_points uniform draws; any other column j takes j normal draws, one per earlier node. */
  function Simulate(W: Matrix, R: Matrix, args: Args, u: Draws, z: Draws, count: nat): (f: Fill)
    requires Shaped(W, R) && count <= |W|
    ensures |f.cols| == count && Columns(f.cols, args.numPoints)
    decreases count
  {
    if count == 0 then Fill([], 0, 0)
    else
      var f := Simulate(W, R, args, u, z, count - 1);
      var j := count - 1;
      if IsSource(W, j) then
        Fill(f.cols + [SourceColumn(args, u, f.nextU)], f.nextU + args.numPoints, f.nextZ)
      else
        var column := seq(args.numPoints, r requires 0 <= r < args.numPoints => EdgeSum(W, R, f.cols, j, r, z, f.nextZ, j));
        Fill(f.cols + [column], f.nextU, f.nextZ + j)
  }

  /** `numpy.random.normal` rejects a negative scale, and the inner loop asks for the scale
    * R[i][j] of every i < j in every column j < count that is not a source. */
  predicate ScalesValidBelow(W: Matrix, R: Matrix, count: nat)
    requires Shaped(W, R) && count <= |W|
  {
    forall i, j :: 0 <= i < j < count && !IsSource(W, j) ==> R[i][j] >= 0.0
  }

  /** No radius that `gen_data` passes to `numpy.random.normal` is negative. */
  predicate ScalesValid(W: Matrix, R: Matrix)
    requires Shaped(W, R)
  {
    ScalesValidBelow(W, R, |W|)
  }

  lemma ScalesValidStep(W: Matrix, R: Matrix, j: nat)
    requires Shaped(W, R) && j < |W|
    ensures ScalesValidBelow(W, R, j + 1) <==>
      ScalesValidBelow(W, R, j) && (IsSource(W, j) || forall t :: 0 <= t < j ==> R[t][j] >= 0.0)
  {
  }

  /** The entries of a 2-D array, row by row. */
  function Grid(a: array2<real>): (g: Matrix)
    reads a
    ensures |g| == a.Length0
    ensures forall i :: 0 <= i < a.Length0 ==> |g[i]| == a.Length1
    ensures forall i, j :: 0 <= i < a.Length0 && 0 <= j < a.Length1 ==> g[i][j] == a[i, j]
  {
    seq(a.Length0, i requires 0 <= i < a.Length0 reads a =>
      seq(a.Length1, j requires 0 <= j < a.Length1 reads a => a[i, j]))
  }

  // ---------------------------------------------------------------------------
  // gen_data, in place

  /** `np.all(weights[:, j] == 0)`, scanning the whole column. */
  method IsZeroColumn(W: array2<real>, j: nat) returns (b: bool)
    requires j < W.Length1
    ensures b == forall i :: 0 <= i < W.Length0 ==> W[i, j] == 0.0
  {
    b := true;
    var i := 0;
    while i < W.Length0
      invariant 0 <= i <= W.Length0
      invariant b == forall t :: 0 <= t < i ==> W[t, j] == 0.0
    {
      b := b && W[i, j] == 0.0;
      i := i + 1;
    }
  }

  /** `data[:, j] = np.random.uniform(min_source_val, max_source_val, num_points)`, drawing from position k. */
  method FillSource(data: array2<real>, j: nat, args: Args, u: Draws, k: nat)
    requires j < data.Length1 && data.Length0 == args.numPoints
    modifies data
    ensures forall r, c :: 0 <= r < data.Length0 && 0 <= c < data.Length1 ==>
      data[r, c] == if c == j then SourceColumn(args, u, k)[r] else old(data[r, c])
  {
    var r := 0;
    while r < data.Length0
      invariant 0 <= r <= data.Length0
      invariant forall r', c :: 0 <= r' < data.Length0 && 0 <= c < data.Length1 ==>
        data[r', c] == if c == j && r' < r then SourceColumn(args, u, k)[r'] else old(data[r', c])
    {
      data[r, j] := Uniform(args.minSourceVal, args.maxSourceVal, u(k + r));
      r := r + 1;
    }
  }

  /** `data[:, j] += w * data[:, i] + e` for an earlier column i and one noise scalar e. */
  method AddEdgeTerm(data: array2<real>, i: nat, j: nat, w: real, e: real)
    requires i < j < data.Length1
    modifies data
    ensures forall r, c :: 0 <= r < data.Length0 && 0 <= c < data.Length1 ==>
      data[r, c] == if c == j then old(data[r, j]) + (w * old(data[r, i]) + e) else old(data[r, c])
  {
    var r := 0;
    while r < data.Length0
      invariant 0 <= r <= data.Length0
      invariant forall r', c :: 0 <= r' < data.Length0 && 0 <= c < data.Length1 ==>
        data[r', c] == if c == j && r' < r then old(data[r', j]) + (w * old(data[r', i]) + e) else old(data[r', c])
    {
      data[r, j] := data[r, j] + (w * data[r, i] + e);
      r := r + 1;
    }
  }

  /** The inner loop of `gen_data` for a column j that is not a source: for i = 0, ..., j - 1,
    * one noise scalar is drawn for edge (i, j) and `weights[i, j] * data[:, i]` plus that
    * scalar is added to every row of column j. Stops, with `ok` false, at the first negative radius. */
  method FillEdgeColumn(W: array2<real>, R: array2<real>, data: array2<real>, j: nat, z: Draws, kz: nat,
                        ghost gw: Matrix, ghost gr: Matrix, ghost cols: seq<seq<real>>)
    returns (ok: bool, next: nat)
    requires Shaped(gw, gr) && |gw| == W.Length0 == W.Length1 == R.Length0 == R.Length1 == data.Length1
    requires forall a, b :: 0 <= a < |gw| && 0 <= b < |gw| ==> gw[a][b] == W[a, b] && gr[a][b] == R[a, b]
    requires data != W && data != R
    requires 0 < j < data.Length1 && |cols| == j && Columns(cols, data.Length0)
    requires forall r, c :: 0 <= r < data.Length0 && 0 <= c < j ==> data[r, c] == cols[c][r]
    requires forall r :: 0 <= r < data.Length0 ==> data[r, j] == 0.0
    modifies data
    ensures forall r, c :: 0 <= r < data.Length0 && 0 <= c < data.Length1 && c != j ==> data[r, c] == old(data[r, c])
    ensures ok == forall t :: 0 <= t < j ==> gr[t][j] >= 0.0
    ensures ok ==> next == kz + j
    ensures ok ==> forall r :: 0 <= r < data.Length0 ==> data[r, j] == EdgeSum(gw, gr, cols, j, r, z, kz, j)
  {
    ok, next := true, kz;
    var i := 0;
    while i < j
      invariant 0 <= i <= j
      invariant next == kz + i
      invariant forall r, c :: 0 <= r < data.Length0 && 0 <= c < data.Length1 && c != j ==> data[r, c] == old(data[r, c])
      invariant forall r :: 0 <= r < data.Length0 ==> data[r, j] == EdgeSum(gw, gr, cols, j, r, z, kz, i)
      invariant forall t :: 0 <= t < i ==> gr[t][j] >= 0.0
    {
      if R[i, j] < 0.0 {
        ok := false;
        assert gr[i][j] < 0.0;
        return;
      }
      var e := Normal(R[i, j], z(next));
      AddEdgeTerm(data, i, j, W[i, j], e);
      next := next + 1;
      i := i + 1;
    }
  }

  /** Filling a column never changes the columns before it: after `count` columns are
    * filled, the first `c` of them are those of the simulation stopped at `c`. */
  lemma {:induction false} ColumnsFinal(W: Matrix, R: Matrix, args: Args, u: Draws, z: Draws, c: nat, count: nat)
    requires Shaped(W, R) && c <= count <= |W|
    ensures Simulate(W, R, args, u, z, count).cols[..c] == Simulate(W, R, args, u, z, c).cols
  {
    if c < count {
      ColumnsFinal(W, R, args, u, z, c, count - 1);
      var before := Simulate(W, R, args, u, z, count - 1).cols;
      var after := Simulate(W, R, args, u, z, count).cols;
      assert after[..count - 1] == before;
      assert after[..c] == before[..c];
    }
  }

  /** One pass of the outer loop of `gen_data` (or the initial fill of column 0): column j is
    * filled with source draws when it is a source, else by `FillEdgeColumn`. */
  method FillColumn(W: array2<real>, R: array2<real>, data: array2<real>, j: nat, args: Args, u: Draws, z: Draws,
                    ku: nat, kz: nat, ghost gw: Matrix, ghost gr: Matrix)
    returns (ok: bool, nextU: nat, nextZ: nat)
    requires Shaped(gw, gr) && |gw| == W.Length0 == W.Length1 == R.Length0 == R.Length1 == data.Length1
    requires forall a, b :: 0 <= a < |gw| && 0 <= b < |gw| ==> gw[a][b] == W[a, b] && gr[a][b] == R[a, b]
    requires data != W && data != R && data.Length0 == args.numPoints
    requires j < data.Length1
    requires ku == Simulate(gw, gr, args, u, z, j).nextU && kz == Simulate(gw, gr, args, u, z, j).nextZ
    requires forall r, c :: 0 <= r < data.Length0 && 0 <= c < j ==> data[r, c] == Simulate(gw, gr, args, u, z, j).cols[c][r]
    requires forall r :: 0 <= r < data.Length0 ==> data[r, j] == 0.0
    modifies data
    ensures forall r, c :: 0 <= r < data.Length0 && j < c < data.Length1 ==> data[r, c] == old(data[r, c])
    ensures ok == (IsSource(gw, j) || forall t :: 0 <= t < j ==> gr[t][j] >= 0.0)
    ensures ok ==> nextU == Simulate(gw, gr, args, u, z, j + 1).nextU && nextZ == Simulate(gw, gr, args, u, z, j + 1).nextZ
    ensures ok ==> forall r, c :: 0 <= r < data.Length0 && 0 <= c <= j ==> data[r, c] == Simulate(gw, gr, args, u, z, j + 1).cols[c][r]
  {
    ghost var f := Simulate(gw, gr, args, u, z, j);
    ghost var g := Simulate(gw, gr, args, u, z, j + 1);
    ColumnsFinal(gw, gr, args, u, z, j, j + 1);
    assert forall c :: 0 <= c < j ==> g.cols[c] == g.cols[..j][c];
    var source := j == 0;
    if !source {
      source := IsZeroColumn(W, j);
      assert source == ZeroColumn(gw, j);
    }
    if source {
      FillSource(data, j, args, u, ku);
      ok, nextU, nextZ := true, ku + args.numPoints, kz;
    } else {
      ok, nextZ := FillEdgeColumn(W, R, data, j, z, kz, gw, gr, f.cols);
      nextU := ku;
    }
  }

  /** The outer loop of `gen_data`: columns 0, ..., num_vars - 1 of the zero-filled buffer are
    * filled left to right. Stops, with `ok` false, where numpy would reject a radius. */
  method FillColumns(W: array2<real>, R: array2<real>, data: array2<real>, args: Args, u: Draws, z: Draws,
                     ghost gw: Matrix, ghost gr: Matrix)
    returns (ok: bool, nextU: nat, nextZ: nat)
    requires Shaped(gw, gr) && |gw| == W.Length0 == W.Length1 == R.Length0 == R.Length1 == data.Length1
    requires forall a, b :: 0 <= a < |gw| && 0 <= b < |gw| ==> gw[a][b] == W[a, b] && gr[a][b] == R[a, b]
    requires data != W && data != R && data.Length0 == args.numPoints
    requires forall r, c :: 0 <= r < data.Length0 && 0 <= c < data.Length1 ==> data[r, c] == 0.0
    modifies data
    ensures ok == ScalesValid(gw, gr)
    ensures ok ==> nextU == Simulate(gw, gr, args, u, z, |gw|).nextU && nextZ == Simulate(gw, gr, args, u, z, |gw|).nextZ
    ensures ok ==> forall r, c :: 0 <= r < data.Length0 && 0 <= c < data.Length1 ==>
      data[r, c] == Simulate(gw, gr, args, u, z, |gw|).cols[c][r]
  {
    var n := data.Length1;
    ok, nextU, nextZ := true, 0, 0;
    ghost var f := Simulate(gw, gr, args, u, z, 0);
    var j := 0;
    while j < n
      invariant 0 <= j <= n && ok
      invariant f == Simulate(gw, gr, args, u, z, j)
      invariant nextU == f.nextU && nextZ == f.nextZ
      invariant forall r, c :: 0 <= r < args.numPoints && 0 <= c < j ==> data[r, c] == f.cols[c][r]
      invariant forall r, c :: 0 <= r < args.numPoints && j <= c < n ==> data[r, c] == 0.0
      invariant ScalesValidBelow(gw, gr, j)
    {
      ok, nextU, nextZ := FillColumn(W, R, data, j, args, u, z, nextU, nextZ, gw, gr);
      ScalesValidStep(gw, gr, j);
      if !ok {
        return;
      }
      j := j + 1;
      f := Simulate(gw, gr, args, u, z, j);
    }
  }

  /** `gen_data(weights, noise, args)`. The buffer has num_points rows and num_vars columns;
    * `ok` is false exactly when numpy would reject a negative noise radius; otherwise every
    * entry is the simulated value and the draw streams have advanced as the simulation says. */
  method GenData(W: array2<real>, R: array2<real>, args: Args, u: Draws, z: Draws)
    returns (data: array2<real>, ok: bool, nextU: nat, nextZ: nat)
    requires 1 <= W.Length0 && W.Length0 == W.Length1 == R.Length0 == R.Length1
    ensures fresh(data)
    ensures data.Length0 == args.numPoints && data.Length1 == W.Length0
    ensures ok == ScalesValid(Grid(W), Grid(R))
    ensures ok ==> nextU == Simulate(Grid(W), Grid(R), args, u, z, W.Length0).nextU
    ensures ok ==> nextZ == Simulate(Grid(W), Grid(R), args, u, z, W.Length0).nextZ
    ensures ok ==> forall r, j :: 0 <= r < args.numPoints && 0 <= j < W.Length0 ==>
      data[r, j] == Simulate(Grid(W), Grid(R), args, u, z, W.Length0).cols[j][r]
  {
    ghost var gw, gr := Grid(W), Grid(R);
    data := new real[args.numPoints, W.Length0]((_, _) => 0.0);
    ok, nextU, nextZ := FillColumns(W, R, data, args, u, z, gw, gr);
  }

  // ---------------------------------------------------------------------------
  // Properties of the simulation

  /** Column j of the finished buffer is the one the pass for column j wrote. */
  lemma FinalColumn(W: Matrix, R: Matrix, args: Args, u: Draws, z: Draws, j: nat)
    requires Shaped(W, R) && j < |W|
    ensures Simulate(W, R, args, u, z, |W|).cols[j] == Simulate(W, R, args, u, z, j + 1).cols[j]
  {
    ColumnsFinal(W, R, args, u, z, j + 1, |W|);
    assert Simulate(W, R, args, u, z, |W|).cols[..j + 1][j] == Simulate(W, R, args, u, z, |W|).cols[j];
  }

  /** The columns before j of the finished buffer are those present when column j is filled. */
  lemma EarlierColumnsFinal(W: Matrix, R: Matrix, args: Args, u: Draws, z: Draws, j: nat)
    requires Shaped(W, R) && j <= |W|
    ensures forall t :: 0 <= t < j ==> Simulate(W, R, args, u, z, |W|).cols[t] == Simulate(W, R, args, u, z, j).cols[t]
  {
    var data := Simulate(W, R, args, u, z, |W|).cols;
    ColumnsFinal(W, R, args, u, z, j, |W|);
    forall t | 0 <= t < j
      ensures data[t] == Simulate(W, R, args, u, z, j).cols[t]
    {
      assert data[..j][t] == data[t];
    }
  }

  /** One source step: column j takes the next num_points uniform draws and no normal draw. */
  lemma SourceColumnDraws(W: Matrix, R: Matrix, args: Args, u: Draws, z: Draws, j: nat)
    requires Shaped(W, R) && j < |W| && IsSource(W, j)
    ensures Simulate(W, R, args, u, z, |W|).cols[j] == SourceColumn(args, u, Simulate(W, R, args, u, z, j).nextU)
    ensures Simulate(W, R, args, u, z, j + 1).nextU == Simulate(W, R, args, u, z, j).nextU + args.numPoints
    ensures Simulate(W, R, args, u, z, j + 1).nextZ == Simulate(W, R, args, u, z, j).nextZ
  {
    FinalColumn(W, R, args, u, z, j);
  }

  /** Column 0 always holds the first num_points uniform draws, whatever the weights hold. */
  lemma FirstColumnIsSource(W: Matrix, R: Matrix, args: Args, u: Draws, z: Draws)
    requires Shaped(W, R) && 1 <= |W|
    ensures Simulate(W, R, args, u, z, |W|).cols[0] == SourceColumn(args, u, 0)
  {
    SourceColumnDraws(W, R, args, u, z, 0);
  }

  /** A later column whose whole weight column is 0 is a source too: it holds the next
    * num_points uniform draws and consumes no normal draw. */
  lemma ZeroColumnIsSource(W: Matrix, R: Matrix, args: Args, u: Draws, z: Draws, j: nat)
    requires Shaped(W, R) && 1 <= j < |W| && ZeroColumn(W, j)
    ensures Simulate(W, R, args, u, z, |W|).cols[j] == SourceColumn(args, u, Simulate(W, R, args, u, z, j).nextU)
    ensures Simulate(W, R, args, u, z, j + 1).nextZ == Simulate(W, R, args, u, z, j).nextZ
  {
    SourceColumnDraws(W, R, args, u, z, j);
  }

  /** Given unit draws, every value of a source column lies between the source bounds. */
  lemma SourceValuesWithinBounds(W: Matrix, R: Matrix, args: Args, u: Draws, z: Draws, j: nat)
    requires Shaped(W, R) && j < |W| && IsSource(W, j) && UnitDraws(u)
    ensures forall r :: 0 <= r < args.numPoints ==>
      Between(args.minSourceVal, args.maxSourceVal, Simulate(W, R, args, u, z, |W|).cols[j][r])
  {
    SourceColumnDraws(W, R, args, u, z, j);
    var k := Simulate(W, R, args, u, z, j).nextU;
    forall r | 0 <= r < args.numPoints
      ensures Between(args.minSourceVal, args.maxSourceVal, SourceColumn(args, u, k)[r])
    {
      UniformBetween(args.minSourceVal, args.maxSourceVal, u(k + r));
    }
  }

  /** The weighted sum over the first `count` earlier columns at row r: W[i][j] * cols[i][r] for i < count. */
  function LinearSum(W: Matrix, cols: seq<seq<real>>, j: nat, r: nat, count: nat): real
    requires Square(W, |W|) && count <= j < |W| && count <= |cols|
    requires forall t :: 0 <= t < count ==> r < |cols[t]|
  {
    if count == 0 then 0.0
    else LinearSum(W, cols, j, r, count - 1) + W[count - 1][j] * cols[count - 1][r]
  }

  /** The noise that the first `count` edges into column j add: one scalar per edge, the same for every row. */
  function NoiseSum(R: Matrix, j: nat, z: Draws, kz: nat, count: nat): real
    requires Square(R, |R|) && count <= j < |R|
  {
    if count == 0 then 0.0
    else NoiseSum(R, j, z, kz, count - 1) + Normal(R[count - 1][j], z(kz + count - 1))
  }

  lemma {:induction false} EdgeSumSplits(W: Matrix, R: Matrix, cols: seq<seq<real>>, j: nat, r: nat, z: Draws, kz: nat, i: nat)
    requires Shaped(W, R) && i <= j < |W| && i <= |cols|
    requires forall t :: 0 <= t < i ==> r < |cols[t]|
    ensures EdgeSum(W, R, cols, j, r, z, kz, i) == LinearSum(W, cols, j, r, i) + NoiseSum(R, j, z, kz, i)
  {
    if i > 0 {
      EdgeSumSplits(W, R, cols, j, r, z, kz, i - 1);
    }
  }

  lemma {:induction false} LinearSumAgrees(W: Matrix, a: seq<seq<real>>, b: seq<seq<real>>, j: nat, r: nat, count: nat)
    requires Square(W, |W|) && count <= j < |W| && count <= |a| && count <= |b|
    requires forall t :: 0 <= t < count ==> r < |a[t]| && r < |b[t]| && a[t][r] == b[t][r]
    ensures LinearSum(W, a, j, r, count) == LinearSum(W, b, j, r, count)
  {
    if count > 0 {
      LinearSumAgrees(W, a, b, j, r, count - 1);
    }
  }

  /** A column j that is not a source holds, at every row r, the sum over i < j of
    * W[i][j] times the final value of column i at row r, plus the sum of the j noise scalars
    * drawn for its incoming candidate edges: one draw per edge, shared by all rows. */
  lemma EdgeColumnValues(W: Matrix, R: Matrix, args: Args, u: Draws, z: Draws, j: nat, r: nat)
    requires Shaped(W, R) && j < |W| && !IsSource(W, j) && r < args.numPoints
    ensures Simulate(W, R, args, u, z, |W|).cols[j][r] ==
      LinearSum(W, Simulate(W, R, args, u, z, |W|).cols, j, r, j) + NoiseSum(R, j, z, Simulate(W, R, args, u, z, j).nextZ, j)
  {
    var before := Simulate(W, R, args, u, z, j);
    var data := Simulate(W, R, args, u, z, |W|).cols;
    FinalColumn(W, R, args, u, z, j);
    assert data[j][r] == EdgeSum(W, R, before.cols, j, r, z, before.nextZ, j);
    EarlierColumnsFinal(W, R, args, u, z, j);
    EdgeSumSplits(W, R, before.cols, j, r, z, before.nextZ, j);
    LinearSumAgrees(W, before.cols, data, j, r, j);
  }

  /** The noise in a column that is not a source does not depend on the row: subtracting the
    * weighted sum of the earlier columns leaves the same value at every row. */
  lemma NoiseSharedByAllRows(W: Matrix, R: Matrix, args: Args, u: Draws, z: Draws, j: nat, r1: nat, r2: nat)
    requires Shaped(W, R) && j < |W| && !IsSource(W, j) && r1 < args.numPoints && r2 < args.numPoints
    ensures Simulate(W, R, args, u, z, |W|).cols[j][r1] - LinearSum(W, Simulate(W, R, args, u, z, |W|).cols, j, r1, j) ==
            Simulate(W, R, args, u, z, |W|).cols[j][r2] - LinearSum(W, Simulate(W, R, args, u, z, |W|).cols, j, r2, j)
  {
    EdgeColumnValues(W, R, args, u, z, j, r1);
    EdgeColumnValues(W, R, args, u, z, j, r2);
  }

  lemma {:induction false} NoiseSumZero(R: Matrix, j: nat, z: Draws, kz: nat, count: nat)
    requires Square(R, |R|) && count <= j < |R|
    requires forall i :: 0 <= i < count ==> R[i][j] == 0.0
    ensures NoiseSum(R, j, z, kz, count) == 0.0
  {
    if count > 0 {
      NoiseSumZero(R, j, z, kz, count - 1);
    }
  }

  /** With radius 0 on every candidate edge into column j, the column is exactly the weighted
    * sum of the earlier columns: `numpy.random.normal(0, 0)` contributes 0. */
  lemma NoiselessColumnIsLinear(W: Matrix, R: Matrix, args: Args, u: Draws, z: Draws, j: nat, r: nat)
    requires Shaped(W, R) && j < |W| && !IsSource(W, j) && r < args.numPoints
    requires forall i :: 0 <= i < j ==> R[i][j] == 0.0
    ensures Simulate(W, R, args, u, z, |W|).cols[j][r] == LinearSum(W, Simulate(W, R, args, u, z, |W|).cols, j, r, j)
  {
    EdgeColumnValues(W, R, args, u, z, j, r);
    NoiseSumZero(R, j, z, Simulate(W, R, args, u, z, j).nextZ, j);
  }

  lemma {:induction false} EdgeSumAgrees(W1: Matrix, W2: Matrix, R: Matrix, cols: seq<seq<real>>, j: nat, r: nat, z: Draws, kz: nat, i: nat)
    requires Shaped(W1, R) && Shaped(W2, R) && i <= j < |W1| && i <= |cols|
    requires forall t :: 0 <= t < i ==> r < |cols[t]|
    requires forall t :: 0 <= t < j ==> W1[t][j] == W2[t][j]
    ensures EdgeSum(W1, R, cols, j, r, z, kz, i) == EdgeSum(W2, R, cols, j, r, z, kz, i)
  {
    if i > 0 {
      EdgeSumAgrees(W1, W2, R, cols, j, r, z, kz, i - 1);
    }
  }

  /** Weights on or below the diagonal are never read by the accumulation; they matter only
    * through the source test, which scans the whole column. Two weight matrices that agree
    * above the diagonal and on which columns are sources generate the same data. */
  lemma {:induction false} LowerWeightsUnread(W1: Matrix, W2: Matrix, R: Matrix, args: Args, u: Draws, z: Draws, count: nat)
    requires Shaped(W1, R) && Shaped(W2, R) && count <= |W1|
    requires forall i, j :: 0 <= i < j < |W1| ==> W1[i][j] == W2[i][j]
    requires forall j :: 0 <= j < |W1| ==> IsSource(W1, j) == IsSource(W2, j)
    ensures Simulate(W1, R, args, u, z, count) == Simulate(W2, R, args, u, z, count)
  {
    if count > 0 {
      var j := count - 1;
      LowerWeightsUnread(W1, W2, R, args, u, z, j);
      var f := Simulate(W1, R, args, u, z, j);
      if !IsSource(W1, j) {
        var c1 := seq(args.numPoints, r requires 0 <= r < args.numPoints => EdgeSum(W1, R, f.cols, j, r, z, f.nextZ, j));
        var c2 := seq(args.numPoints, r requires 0 <= r < args.numPoints => EdgeSum(W2, R, f.cols, j, r, z, f.nextZ, j));
        forall r | 0 <= r < args.numPoints
          ensures c1[r] == c2[r]
        {
          EdgeSumAgrees(W1, W2, R, f.cols, j, r, z, f.nextZ, j);
        }
        assert c1 == c2;
      }
    }
  }

  // ---------------------------------------------------------------------------
  // A worked example: the chain 0 -> 1 -> 2

  /** Weights 2 on edge (0, 1) and 3 on edge (1, 2). */
  const ChainWeights: Matrix := [[0.0, 2.0, 0.0], [0.0, 0.0, 3.0], [0.0, 0.0, 0.0]]

  /** Radius 0 on edge (0, 1), 0.01 on edge (1, 2). */
  const ChainRadii: Matrix := [[0.0, 0.0, 0.0], [0.0, 0.0, 0.01], [0.0, 0.0, 0.0]]

  /** Five points, source values in [0, 1]. */
  const ChainArgs: Args := Args(5, 0.0, 1.0)

  function ChainData(u: Draws, z: Draws): seq<seq<real>>
  {
    Simulate(ChainWeights, ChainRadii, ChainArgs, u, z, 3).cols
  }

  /** Column 0 is the first five uniform draws; column 1 is exactly twice column 0, its one
    * noise scalar having radius 0; column 2 is three times column 1 plus 0.01 times the third
    * normal draw (the second, for edge (0, 2), has radius 0), the same noise at every row. */
  lemma ChainExample(u: Draws, z: Draws)
    ensures ChainData(u, z)[0] == SourceColumn(ChainArgs, u, 0)
    ensures forall r :: 0 <= r < 5 ==> ChainData(u, z)[1][r] == 2.0 * ChainData(u, z)[0][r]
    ensures forall r :: 0 <= r < 5 ==> ChainData(u, z)[2][r] == 3.0 * ChainData(u, z)[1][r] + 0.01 * z(2)
  {
    var W, R := ChainWeights, ChainRadii;
    assert Shaped(W, R);
    assert !IsSource(W, 1) by { assert W[0][1] != 0.0; }
    assert !IsSource(W, 2) by { assert W[1][2] != 0.0; }
    FirstColumnIsSource(W, R, ChainArgs, u, z);
    var f1 := Simulate(W, R, ChainArgs, u, z, 1);
    var f2 := Simulate(W, R, ChainArgs, u, z, 2);
    assert f1.nextZ == 0;
    assert f2.nextZ == 1;
    forall r | 0 <= r < 5
      ensures ChainData(u, z)[1][r] == 2.0 * ChainData(u, z)[0][r]
      ensures ChainData(u, z)[2][r] == 3.0 * ChainData(u, z)[1][r] + 0.01 * z(2)
    {
      EdgeColumnValues(W, R, ChainArgs, u, z, 1, r);
      EdgeColumnValues(W, R, ChainArgs, u, z, 2, r);
    }
  }
}
