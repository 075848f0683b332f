/** What the Bell element's transformation matrix V promises, entry by entry:
    the vertex blocks, the edge-constraint rows and their endpoint asymmetry,
    the entries left at 0, the single cell-size division per derivative
    column, and which geometric tensors each entry selects. */
module BellProperties {
  import opened Gem
  import opened BellMatrix

  /** Vertex v's block: the value maps 1:1, the first-derivative sub-block is
      the transposed Jacobian and the second-derivative sub-block holds the
      nine quadratic expressions in the Jacobian's entries. */
  lemma VertexBlockEntries(v: nat)
    requires v < Vertices
    ensures var s := 6 * v;
      && Assembled(s, s) == Literal(1)
      && Assembled(s + 1, s + 1) == Indexed(J, [0, 0])
      && Assembled(s + 1, s + 2) == Indexed(J, [1, 0])
      && Assembled(s + 2, s + 1) == Indexed(J, [0, 1])
      && Assembled(s + 2, s + 2) == Indexed(J, [1, 1])
      && Assembled(s + 3, s + 3) == Power(Indexed(J, [0, 0]), Literal(2))
      && Assembled(s + 3, s + 4) == Product(Literal(2), Product(Indexed(J, [0, 0]), Indexed(J, [1, 0])))
      && Assembled(s + 3, s + 5) == Power(Indexed(J, [1, 0]), Literal(2))
      && Assembled(s + 4, s + 3) == Product(Indexed(J, [0, 0]), Indexed(J, [0, 1]))
      && Assembled(s + 4, s + 4) == Sum(Product(Indexed(J, [0, 0]), Indexed(J, [1, 1])),
                                        Product(Indexed(J, [1, 0]), Indexed(J, [0, 1])))
      && Assembled(s + 4, s + 5) == Product(Indexed(J, [1, 0]), Indexed(J, [1, 1]))
      && Assembled(s + 5, s + 3) == Power(Indexed(J, [0, 1]), Literal(2))
      && Assembled(s + 5, s + 4) == Product(Literal(2), Product(Indexed(J, [0, 1]), Indexed(J, [1, 1])))
      && Assembled(s + 5, s + 5) == Power(Indexed(J, [1, 1]), Literal(2))
  {
    var s := 6 * v;
    VertexRow(v, 0, s);
    VertexRow(v, 1, s + 1); VertexRow(v, 1, s + 2);
    VertexRow(v, 2, s + 1); VertexRow(v, 2, s + 2);
    VertexRow(v, 3, s + 3); VertexRow(v, 3, s + 4); VertexRow(v, 3, s + 5);
    VertexRow(v, 4, s + 3); VertexRow(v, 4, s + 4); VertexRow(v, 4, s + 5);
    VertexRow(v, 5, s + 3); VertexRow(v, 5, s + 4); VertexRow(v, 5, s + 5);
  }

  /** Edge-constraint row 18+e in the columns of its endpoints v0 < v1: the
      value entries are -foo/(21·pel) and foo/(21·pel); both endpoints get
      the same first-derivative entries; the second-derivative entries are
      -pel·foo·τ_i/252 for v0 and pel·foo·τ_i/252 for v1. */
  lemma EdgeRowEntries(e: nat)
    requires e < 3
    ensures var (v0, v1) := Endpoints(e);
      var foo := Flux(e);
      var pel := Indexed(PEL, [e]);
      && Assembled(18 + e, 6 * v0) == Division(Product(Literal(-1), foo), Product(Literal(21), pel))
      && Assembled(18 + e, 6 * v1) == Division(foo, Product(Literal(21), pel))
      && Assembled(18 + e, 6 * v0 + 1) == Division(Product(Literal(-1), Product(foo, Indexed(PTS, [e, 0]))), Literal(42))
      && Assembled(18 + e, 6 * v0 + 2) == Division(Product(Literal(-1), Product(foo, Indexed(PTS, [e, 1]))), Literal(42))
      && Assembled(18 + e, 6 * v1 + 1) == Division(Product(Literal(-1), Product(foo, Indexed(PTS, [e, 0]))), Literal(42))
      && Assembled(18 + e, 6 * v1 + 2) == Division(Product(Literal(-1), Product(foo, Indexed(PTS, [e, 1]))), Literal(42))
      && Assembled(18 + e, 6 * v0 + 3) == Division(Product(Literal(-1), Product(pel, Product(foo, Tau(e)[0]))), Literal(252))
      && Assembled(18 + e, 6 * v0 + 4) == Division(Product(Literal(-1), Product(pel, Product(foo, Tau(e)[1]))), Literal(252))
      && Assembled(18 + e, 6 * v0 + 5) == Division(Product(Literal(-1), Product(pel, Product(foo, Tau(e)[2]))), Literal(252))
      && Assembled(18 + e, 6 * v1 + 3) == Division(Product(pel, Product(foo, Tau(e)[0])), Literal(252))
      && Assembled(18 + e, 6 * v1 + 4) == Division(Product(pel, Product(foo, Tau(e)[1])), Literal(252))
      && Assembled(18 + e, 6 * v1 + 5) == Division(Product(pel, Product(foo, Tau(e)[2])), Literal(252))
  {
    var (v0, v1) := Endpoints(e);
    EdgeRow(e, 6 * v0); EdgeRow(e, 6 * v0 + 1); EdgeRow(e, 6 * v0 + 2);
    EdgeRow(e, 6 * v0 + 3); EdgeRow(e, 6 * v0 + 4); EdgeRow(e, 6 * v0 + 5);
    EdgeRow(e, 6 * v1); EdgeRow(e, 6 * v1 + 1); EdgeRow(e, 6 * v1 + 2);
    EdgeRow(e, 6 * v1 + 3); EdgeRow(e, 6 * v1 + 4); EdgeRow(e, 6 * v1 + 5);
  }

  /** The v0 form of an entry, given the v1 form: its numerator negated. */
  function NegatedNumerator(x: Expr): Expr
  {
    match x
    case Division(n, d) => Division(Product(Literal(-1), n), d)
    case _ => Product(Literal(-1), x)
  }

  /** Swapping an edge's endpoints negates its value and second-derivative
      entries but not its first-derivative entries, which the two endpoints
      share unchanged. */
  lemma EndpointAsymmetry(e: nat, k: nat)
    requires e < 3 && k < 6
    ensures var (v0, v1) := Endpoints(e);
      var a, b := Assembled(18 + e, 6 * v0 + k), Assembled(18 + e, 6 * v1 + k);
      if 1 <= k <= 2 then a == b && a != NegatedNumerator(b) else a == NegatedNumerator(b) && a != b
  {
    var (v0, v1) := Endpoints(e);
    EdgeRow(e, 6 * v0 + k);
    EdgeRow(e, 6 * v1 + k);
  }

  /** The entries of V that the vertex and edge loops write. */
  predicate Written(r: nat, c: nat)
    requires r < RawDofs && c < Dofs
  {
    if r < 18 then
      var i, j := r % 6, c % 6;
      r / 6 == c / 6 && ((i == 0 && j == 0) || (1 <= i <= 2 && 1 <= j <= 2) || (3 <= i && 3 <= j))
    else
      c / 6 != r - 18
  }

  /** Before scaling, an entry is the symbolic 0 exactly when the vertex and
      edge loops never wrote it: off-block entries of rows 0-17, the unwritten
      entries inside each block, and the columns of vertex e in row 18+e. */
  lemma ZeroExactlyWhereUnwritten(r: nat, c: nat)
    requires r < RawDofs && c < Dofs
    ensures Assembled(r, c) == Literal(0) <==> !Written(r, c)
  {
    if r >= 18 {
      EdgeRow(r - 18, c);
    }
  }

  /** Scaling wraps an entry exactly once: value columns keep their entry,
      first-derivative columns of vertex v divide it by h[v], second-derivative
      columns by h[v]², and removing that one division gives the entry back. */
  lemma ScaledWrapsOnce(r: nat, c: nat)
    requires r < RawDofs && c < Dofs
    ensures var v, k := c / 6, c % 6;
      Scaled(r, c) ==
        if k == 0 then Assembled(r, c)
        else if k <= 2 then Division(Assembled(r, c), Indexed(H, [v]))
        else Division(Assembled(r, c), Power(Indexed(H, [v]), Literal(2)))
    ensures c % 6 != 0 ==> Scaled(r, c).Division? && Scaled(r, c).numerator == Assembled(r, c)
    ensures Scaled(r, c) == Assembled(r, c) <==> c % 6 == 0
  {
  }

  /** The four Jacobian entries. */
  function JacobianElements(): set<(Tensor, seq<nat>)>
  {
    {(J, [0, 0]), (J, [0, 1]), (J, [1, 0]), (J, [1, 1])}
  }

  /** The normal, tangent and length elements of edge e. */
  function EdgeElements(e: nat): set<(Tensor, seq<nat>)>
  {
    {(RNS, [e, 0]), (RNS, [e, 1]), (PTS, [e, 0]), (PTS, [e, 1]), (PEL, [e])}
  }

  /** A second-derivative entry of a vertex block selects Jacobian entries only. */
  lemma HessianReads(i: nat, j: nat)
    requires i < 3 && j < 3
    ensures Reads(HessianEntry(i, j)) <= JacobianElements()
  {
  }

  /** An entry of a vertex block selects Jacobian entries only. */
  lemma BlockReads(i: nat, j: nat)
    requires i < 6 && j < 6
    ensures Reads(BlockEntry(i, j)) <= JacobianElements()
  {
  }

  /** The flux of edge e selects both components of that edge's normal and
      tangent and all four Jacobian entries. */
  lemma FluxReads(e: nat)
    ensures Reads(Flux(e)) == {(RNS, [e, 0]), (RNS, [e, 1]), (PTS, [e, 0]), (PTS, [e, 1])} + JacobianElements()
  {
    var t0, t1 := Indexed(PTS, [e, 0]), Indexed(PTS, [e, 1]);
    var n0, n1 := Indexed(RNS, [e, 0]), Indexed(RNS, [e, 1]);
    var a := Product(JAt(0, 0), t0);
    var b := Product(JAt(1, 0), t1);
    var c := Product(JAt(0, 1), t0);
    var d := Product(JAt(1, 1), t1);
    assert Reads(a) == {(J, [0, 0]), (PTS, [e, 0])};
    assert Reads(b) == {(J, [1, 0]), (PTS, [e, 1])};
    assert Reads(c) == {(J, [0, 1]), (PTS, [e, 0])};
    assert Reads(d) == {(J, [1, 1]), (PTS, [e, 1])};
    assert Reads(Sum(a, b)) == Reads(a) + Reads(b);
    assert Reads(Sum(c, d)) == Reads(c) + Reads(d);
    assert Reads(Product(n0, Sum(a, b))) == {(RNS, [e, 0])} + Reads(a) + Reads(b);
    assert Reads(Product(n1, Sum(c, d))) == {(RNS, [e, 1])} + Reads(c) + Reads(d);
  }

  /** Each tangent monomial of edge e selects only that edge's tangent. */
  lemma TauReads(e: nat, i: nat)
    requires i < 3
    ensures Reads(Tau(e)[i]) <= {(PTS, [e, 0]), (PTS, [e, 1])}
  {
    var t0, t1 := Indexed(PTS, [e, 0]), Indexed(PTS, [e, 1]);
    assert Reads(t0) == {(PTS, [e, 0])} && Reads(t1) == {(PTS, [e, 1])};
    assert Reads(Literal(2)) == {};
    assert Reads(Product(t0, t1)) == Reads(t0) + Reads(t1);
  }

  /** An entry of edge row 18+e selects Jacobian entries and elements of edge e only. */
  lemma EdgeEntryReads(e: nat, first: bool, k: nat)
    requires e < 3 && k < 6
    ensures Reads(EdgeEntry(e, first, k)) <= JacobianElements() + EdgeElements(e)
  {
    FluxReads(e);
    var foo, pel := Flux(e), Indexed(PEL, [e]);
    assert Reads(pel) == {(PEL, [e])};
    assert Reads(Literal(-1)) == {} && Reads(Literal(21)) == {};
    if k == 0 {
      assert Reads(Product(Literal(-1), foo)) == Reads(foo);
      assert Reads(Product(Literal(21), pel)) == Reads(pel);
    } else if k <= 2 {
      var t := Indexed(PTS, [e, k - 1]);
      assert Reads(t) == {(PTS, [e, k - 1])};
      assert Reads(Product(foo, t)) == Reads(foo) + Reads(t);
      assert Reads(Product(Literal(-1), Product(foo, t))) == Reads(foo) + Reads(t);
    } else {
      var tau := Tau(e)[k - 3];
      TauReads(e, k - 3);
      var x := Product(pel, Product(foo, tau));
      assert Reads(Product(foo, tau)) == Reads(foo) + Reads(tau);
      assert Reads(x) == Reads(pel) + Reads(foo) + Reads(tau);
      assert Reads(Product(Literal(-1), x)) == Reads(x);
    }
  }

  /** Jacobian entries and edge elements lie within their tensors' extents. */
  lemma ElementsInBounds(e: nat)
    requires e < 3
    ensures forall p :: p in JacobianElements() ==> InBounds(p.0, p.1) && p.0 == J
    ensures forall p :: p in EdgeElements(e) ==> InBounds(p.0, p.1) && p.0 != H && p.0 != J && |p.1| > 0 && p.1[0] == e
  {
  }

  /** Before scaling, the vertex rows select only Jacobian entries; edge row
      18+e selects Jacobian entries and the normal, tangent and length of edge
      e only; no entry selects a cell size; every selection is in bounds. */
  lemma AssembledReads(r: nat, c: nat)
    requires r < RawDofs && c < Dofs
    ensures forall p :: p in Reads(Assembled(r, c)) ==> InBounds(p.0, p.1) && p.0 != H
    ensures r < 18 ==> forall p :: p in Reads(Assembled(r, c)) ==> p.0 == J
    ensures 18 <= r ==> forall p :: p in Reads(Assembled(r, c)) ==> p.0 == J || (|p.1| > 0 && p.1[0] == r - 18)
  {
    if r < 18 {
      var v := r / 6;
      VertexRow(v, r - 6 * v, c);
      if 6 * v <= c < 6 * v + 6 {
        BlockReads(r - 6 * v, c - 6 * v);
      }
      assert Reads(Assembled(r, c)) <= JacobianElements();
      ElementsInBounds(0);
    } else {
      var e := r - 18;
      var (v0, v1) := Endpoints(e);
      EdgeRow(e, c);
      if 6 * v0 <= c < 6 * v0 + 6 {
        EdgeEntryReads(e, true, c - 6 * v0);
      } else if 6 * v1 <= c < 6 * v1 + 6 {
        EdgeEntryReads(e, false, c - 6 * v1);
      }
      assert Reads(Assembled(r, c)) <= JacobianElements() + EdgeElements(e);
      ElementsInBounds(e);
    }
  }

  /** Scaling adds exactly one selection, the cell size of the column's vertex,
      to every derivative column and none to value columns; so every entry of
      the finished matrix selects only in-bounds tensor elements. */
  lemma ScaledReads(r: nat, c: nat)
    requires r < RawDofs && c < Dofs
    ensures Reads(Scaled(r, c)) == Reads(Assembled(r, c)) + (if c % 6 == 0 then {} else {(H, [c / 6])})
    ensures WellIndexed(Scaled(r, c))
  {
    AssembledReads(r, c);
    var h := Indexed(H, [c / 6]);
    assert Reads(h) == {(H, [c / 6])};
    assert Reads(Power(h, Literal(2))) == Reads(h);
  }
}
