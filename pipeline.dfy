// The two tools chained: what `gen_data` does with the weight and radius matrices that
// `generate_matrix` returns. Writing them to files and loading them back is not modelled.

module Pipeline {
  import opened Sampling
  import opened GenGraph
  import opened GenData

  /** With non-negative radius bounds, a generated graph never makes the data generator
    * pass a negative scale to `numpy.random.normal`: its radii are 0 off the edges and lie
    * between the two bounds on them. */
  lemma GeneratedRadiiAccepted(n: int, p: real, minW: real, maxW: real, minR: real, maxR: real, d: Draws, g: Graph)
    requires g == GenerateMatrix(n, p, minW, maxW, minR, maxR, d)
    requires UnitDraws(d) && 0.0 <= minR && 0.0 <= maxR
    ensures Shaped(g.weights, g.radii)
    ensures ScalesValid(g.weights, g.radii)
  {
    RadiusOnlyOnEdges(n, p, minW, maxW, minR, maxR, d, g);
    ValuesWithinBounds(n, p, minW, maxW, minR, maxR, d, g);
    forall i, j | 0 <= i < j < |g.weights| && !IsSource(g.weights, j)
      ensures g.radii[i][j] >= 0.0
    {
      if g.radii[i][j] != 0.0 {
        assert Between(minR, maxR, g.radii[i][j]);
      }
    }
  }

  /** In a generated graph the source test of the data generator picks exactly the nodes
    * without a parent: column j is a source iff no i < j has an edge into j. */
  lemma GeneratedSourcesHaveNoParent(n: int, p: real, minW: real, maxW: real, minR: real, maxR: real, d: Draws, g: Graph, j: nat)
    requires g == GenerateMatrix(n, p, minW, maxW, minR, maxR, d)
    requires j < Size(n)
    ensures Shaped(g.weights, g.radii)
    ensures IsSource(g.weights, j) <==> forall i :: 0 <= i < j ==> g.weights[i][j] == 0.0
  {
    Triangular(n, p, minW, maxW, minR, maxR, d, g);
  }
}
