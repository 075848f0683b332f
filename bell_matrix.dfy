/** The Bell element's symbolic change-of-basis matrix (finat/bell.py,
    basis_transformation). V has 21 rows, one per raw dof of the reference
    element, and 18 columns, one per physical dof: six per vertex (value,
    two first derivatives, three second derivatives). Rows 18, 19 and 20 are
    the auxiliary edge-constraint rows. The functions below state every
    entry of V; the method builds V in place as the source does. */
module BellMatrix {
  import opened Gem

  const RawDofs: nat := 21
  const Dofs: nat := 18
  const Vertices: nat := 3

  function JAt(a: nat, b: nat): Expr
  {
    Indexed(J, [a, b])
  }

  function Squared(x: Expr): Expr
  {
    Power(x, Literal(2))
  }

  /** Entry (i, j) of the 3×3 second-derivative sub-block of a vertex block. */
  function HessianEntry(i: nat, j: nat): Expr
    requires i < 3 && j < 3
  {
    if i == 0 then
      if j == 0 then Squared(JAt(0, 0))
      else if j == 1 then Product(Literal(2), Product(JAt(0, 0), JAt(1, 0)))
      else Squared(JAt(1, 0))
    else if i == 1 then
      if j == 0 then Product(JAt(0, 0), JAt(0, 1))
      else if j == 1 then Sum(Product(JAt(0, 0), JAt(1, 1)), Product(JAt(1, 0), JAt(0, 1)))
      else Product(JAt(1, 0), JAt(1, 1))
    else
      if j == 0 then Squared(JAt(0, 1))
      else if j == 1 then Product(Literal(2), Product(JAt(0, 1), JAt(1, 1)))
      else Squared(JAt(1, 1))
  }

  /** Entry (i, j) of a vertex's 6×6 diagonal block, before scaling: the value
      maps 1:1, the first derivatives through the transposed Jacobian, the
      second derivatives through HessianEntry, and nothing else is written. */
  function BlockEntry(i: nat, j: nat): Expr
    requires i < 6 && j < 6
  {
    if i == 0 && j == 0 then Literal(1)
    else if 1 <= i <= 2 && 1 <= j <= 2 then JAt(j - 1, i - 1)
    else if 3 <= i && 3 <= j then HessianEntry(i - 3, j - 3)
    else Literal(0)
  }

  /** Each element of s is smaller than the next one. */
  predicate Increasing(s: seq<nat>)
  {
    |s| < 2 || (s[0] < s[1] && Increasing(s[1..]))
  }

  /** The head of an increasing list lies below every element of its tail. */
  lemma {:induction false} HeadBelowTail(s: seq<nat>)
    requires |s| > 0 && Increasing(s)
    ensures forall y :: y in s[1..] ==> s[0] < y
  {
    if |s| >= 2 {
      HeadBelowTail(s[1..]);
      assert s[1..][1..] == s[2..];
      assert forall y :: y in s[1..] ==> y == s[1] || y in s[2..];
    }
  }

  /** The elements of s other than x, in their original order: exactly the
      other elements remain, and an increasing list stays increasing. */
  function Without(s: seq<nat>, x: nat): (r: seq<nat>)
    ensures forall y :: y in r <==> y in s && y != x
    ensures Increasing(s) ==> Increasing(r)
  {
    if s == [] then []
    else
      var rest := Without(s[1..], x);
      assert s == [s[0]] + s[1..];
      if s[0] == x then
        rest
      else
        assert Increasing(s) ==> Increasing([s[0]] + rest) by {
          if Increasing(s) && |rest| > 0 {
            HeadBelowTail(s);
            assert rest[0] in rest;
            assert ([s[0]] + rest)[1..] == rest;
          }
        }
        [s[0]] + rest
  }

  /** Without keeps every other element as many times as it occurs in s and
      drops every occurrence of x. */
  lemma {:induction false} WithoutCounts(s: seq<nat>, x: nat)
    ensures multiset(Without(s, x)) == multiset(s)[x := 0]
  {
    if s != [] {
      WithoutCounts(s[1..], x);
      assert s == [s[0]] + s[1..];
    }
  }

  /** The two endpoints of edge e: the vertices other than e, in increasing order. */
  function Endpoints(e: nat): (p: (nat, nat))
    requires e < 3
    ensures p.0 < p.1 < 3 && p.0 != e && p.1 != e
  {
    var others := Without([0, 1, 2], e);
    assert others == if e == 0 then [1, 2] else if e == 1 then [0, 2] else [0, 1];
    (others[0], others[1])
  }

  /** n̂ᵀ · J · t for edge e: the reference normal paired with the physical
      tangent through the Jacobian. */
  function Flux(e: nat): Expr
  {
    Sum(Product(Indexed(RNS, [e, 0]),
                Sum(Product(JAt(0, 0), Indexed(PTS, [e, 0])),
                    Product(JAt(1, 0), Indexed(PTS, [e, 1])))),
        Product(Indexed(RNS, [e, 1]),
                Sum(Product(JAt(0, 1), Indexed(PTS, [e, 0])),
                    Product(JAt(1, 1), Indexed(PTS, [e, 1])))))
  }

  /** The tangent's quadratic monomials (t_x², 2·t_x·t_y, t_y²) for edge e. */
  function Tau(e: nat): (tau: seq<Expr>)
    ensures |tau| == 3
  {
    [Squared(Indexed(PTS, [e, 0])),
     Product(Literal(2), Product(Indexed(PTS, [e, 0]), Indexed(PTS, [e, 1]))),
     Squared(Indexed(PTS, [e, 1]))]
  }

  /** Entry of edge-constraint row 18+e in local column k of an endpoint's
      block; `first` selects the lower-numbered endpoint v0. */
  function EdgeEntry(e: nat, first: bool, k: nat): Expr
    requires e < 3 && k < 6
  {
    var foo := Flux(e);
    var pel := Indexed(PEL, [e]);
    if k == 0 then
      if first then Division(Product(Literal(-1), foo), Product(Literal(21), pel))
      else Division(foo, Product(Literal(21), pel))
    else if k <= 2 then
      Division(Product(Literal(-1), Product(foo, Indexed(PTS, [e, k - 1]))), Literal(42))
    else if first then
      Division(Product(Literal(-1), Product(pel, Product(foo, Tau(e)[k - 3]))), Literal(252))
    else
      Division(Product(pel, Product(foo, Tau(e)[k - 3])), Literal(252))
  }

  /** V[r, c] once the vertex blocks and the edge rows are written, before scaling. */
  function Assembled(r: nat, c: nat): Expr
    requires r < RawDofs && c < Dofs
  {
    if r < 18 then
      if r / 6 == c / 6 then BlockEntry(r % 6, c % 6) else Literal(0)
    else
      var e := r - 18;
      var (v0, v1) := Endpoints(e);
      if c / 6 == v0 then EdgeEntry(e, true, c % 6)
      else if c / 6 == v1 then EdgeEntry(e, false, c % 6)
      else Literal(0)
  }

  /** The divisor the scaling step applies to derivative column c: it
      selects the cell size of the column's vertex and nothing else. */
  function ScaleFactor(c: nat): (f: Expr)
    requires c < Dofs && c % 6 != 0
    ensures Reads(f) == {(H, [c / 6])}
  {
    if c % 6 <= 2 then Indexed(H, [c / 6])
    else Power(Indexed(H, [c / 6]), Literal(2))
  }

  /** V[r, c] after non-dimensionalisation: derivative columns are divided by
      the cell size of their vertex (first derivatives) or its square
      (second derivatives); value columns are left as they are. */
  function Scaled(r: nat, c: nat): Expr
    requires r < RawDofs && c < Dofs
  {
    if c % 6 == 0 then Assembled(r, c) else Division(Assembled(r, c), ScaleFactor(c))
  }

  /** Every entry starts as the symbolic constant 0. */
  method FillZero(V: array2<Expr>)
    requires V.Length0 == RawDofs && V.Length1 == Dofs
    modifies V
    ensures forall r, c :: 0 <= r < RawDofs && 0 <= c < Dofs ==> V[r, c] == Literal(0)
  {
    for r := 0 to RawDofs
      invariant forall i, j :: 0 <= i < r && 0 <= j < Dofs ==> V[i, j] == Literal(0)
    {
      for c := 0 to Dofs
        invariant forall i, j :: 0 <= i < RawDofs && 0 <= j < Dofs && (i < r || (i == r && j < c)) ==> V[i, j] == Literal(0)
      {
        V[r, c] := Literal(0);
      }
    }
  }

  /** Row 6v+i of V, before scaling, holds row i of vertex v's block in the
      block's columns and 0 everywhere else. */
  lemma VertexRow(v: nat, i: nat, c: nat)
    requires v < Vertices && i < 6 && c < Dofs
    ensures Assembled(6 * v + i, c) == if 6 * v <= c < 6 * v + 6 then BlockEntry(i, c - 6 * v) else Literal(0)
  {
    assert (6 * v + i) / 6 == v && (6 * v + i) % 6 == i;
    if 6 * v <= c < 6 * v + 6 {
      assert c / 6 == v && c % 6 == c - 6 * v;
    } else {
      assert c / 6 != v;
    }
  }

  /** Writes the transposed Jacobian into the 2×2 first-derivative sub-block
      whose top-left entry is V[s+1, s+1]; nothing else changes. */
  method WriteJacobianTranspose(V: array2<Expr>, s: nat)
    requires V.Length0 == RawDofs && V.Length1 == Dofs && s + 3 <= Dofs
    modifies V
    ensures forall r, c :: 0 <= r < RawDofs && 0 <= c < Dofs && !(s + 1 <= r < s + 3 && s + 1 <= c < s + 3) ==>
      V[r, c] == old(V[r, c])
    ensures forall r, c :: s + 1 <= r < s + 3 && s + 1 <= c < s + 3 ==> V[r, c] == JAt(c - s - 1, r - s - 1)
  {
    for i := 0 to 2
      invariant forall r, c :: 0 <= r < RawDofs && 0 <= c < Dofs && !(s + 1 <= r < s + 1 + i && s + 1 <= c < s + 3) ==>
        V[r, c] == old(V[r, c])
      invariant forall r, c :: s + 1 <= r < s + 1 + i && s + 1 <= c < s + 3 ==> V[r, c] == JAt(c - s - 1, r - s - 1)
    {
      for j := 0 to 2
        invariant forall r, c :: 0 <= r < RawDofs && 0 <= c < Dofs
                                 && !(s + 1 <= r < s + 1 + i && s + 1 <= c < s + 3)
                                 && !(r == s + 1 + i && s + 1 <= c < s + 1 + j) ==>
          V[r, c] == old(V[r, c])
        invariant forall r, c :: s + 1 <= r < s + 1 + i && s + 1 <= c < s + 3 ==> V[r, c] == JAt(c - s - 1, r - s - 1)
        invariant forall r, c :: r == s + 1 + i && s + 1 <= c < s + 1 + j ==> V[r, c] == JAt(c - s - 1, r - s - 1)
      {
        V[s + 1 + i, s + 1 + j] := JAt(j, i);
      }
    }
  }

  /** Writes the nine second-derivative expressions into the 3×3 sub-block
      whose top-left entry is V[s+3, s+3]; nothing else changes. */
  method WriteHessian(V: array2<Expr>, s: nat)
    requires V.Length0 == RawDofs && V.Length1 == Dofs && s + 6 <= Dofs
    modifies V
    ensures forall r, c :: 0 <= r < RawDofs && 0 <= c < Dofs && !(s + 3 <= r < s + 6 && s + 3 <= c < s + 6) ==>
      V[r, c] == old(V[r, c])
    ensures forall r, c :: s + 3 <= r < s + 6 && s + 3 <= c < s + 6 ==> V[r, c] == HessianEntry(r - s - 3, c - s - 3)
  {
    V[s + 3, s + 3] := Power(JAt(0, 0), Literal(2));
    V[s + 3, s + 4] := Product(Literal(2), Product(JAt(0, 0), JAt(1, 0)));
    V[s + 3, s + 5] := Power(JAt(1, 0), Literal(2));
    V[s + 4, s + 3] := Product(JAt(0, 0), JAt(0, 1));
    V[s + 4, s + 4] := Sum(Product(JAt(0, 0), JAt(1, 1)), Product(JAt(1, 0), JAt(0, 1)));
    V[s + 4, s + 5] := Product(JAt(1, 0), JAt(1, 1));
    V[s + 5, s + 3] := Power(JAt(0, 1), Literal(2));
    V[s + 5, s + 4] := Product(Literal(2), Product(JAt(0, 1), JAt(1, 1)));
    V[s + 5, s + 5] := Power(JAt(1, 1), Literal(2));
  }

  /** Writes the diagonal block of vertex v into rows and columns 6v..6v+5;
      every other row is left as it was. */
  method WriteVertexBlock(V: array2<Expr>, v: nat)
    requires V.Length0 == RawDofs && V.Length1 == Dofs && v < Vertices
    requires forall r, c :: 6 * v <= r < 6 * v + 6 && 0 <= c < Dofs ==> V[r, c] == Literal(0)
    modifies V
    ensures forall r, c :: 0 <= r < RawDofs && 0 <= c < Dofs && (r < 6 * v || 6 * v + 6 <= r) ==> V[r, c] == old(V[r, c])
    ensures forall r, c :: 6 * v <= r < 6 * v + 6 && 0 <= c < Dofs ==>
      V[r, c] == if 6 * v <= c < 6 * v + 6 then BlockEntry(r - 6 * v, c - 6 * v) else Literal(0)
  {
    var s := 6 * v;
    V[s, s] := Literal(1);
    WriteJacobianTranspose(V, s);
    WriteHessian(V, s);
  }

  /** Row 18+e of V, before scaling, holds the edge entries in the columns of
      the edge's two endpoints and 0 in the columns of vertex e. */
  lemma EdgeRow(e: nat, c: nat)
    requires e < 3 && c < Dofs
    ensures var (v0, v1) := Endpoints(e);
      Assembled(18 + e, c) ==
        if 6 * v0 <= c < 6 * v0 + 6 then EdgeEntry(e, true, c - 6 * v0)
        else if 6 * v1 <= c < 6 * v1 + 6 then EdgeEntry(e, false, c - 6 * v1)
        else Literal(0)
  {
    var (v0, v1) := Endpoints(e);
    if 6 * v0 <= c < 6 * v0 + 6 {
      assert c / 6 == v0 && c % 6 == c - 6 * v0;
    } else if 6 * v1 <= c < 6 * v1 + 6 {
      assert c / 6 == v1 && c % 6 == c - 6 * v1;
    } else {
      assert c / 6 != v0 && c / 6 != v1;
    }
  }

  /** Writes the first-derivative entries of edge-constraint row 18+e: v0
      gets -foo·t_i/42 and v1 a copy of the same entry; nothing else changes. */
  method WriteEdgeFirstDerivatives(V: array2<Expr>, e: nat, foo: Expr)
    requires V.Length0 == RawDofs && V.Length1 == Dofs && e < 3 && foo == Flux(e)
    modifies V
    ensures var (v0, v1) := Endpoints(e);
      forall r, c :: 0 <= r < RawDofs && 0 <= c < Dofs
                     && !(r == 18 + e && (6 * v0 + 1 <= c < 6 * v0 + 3 || 6 * v1 + 1 <= c < 6 * v1 + 3)) ==>
        V[r, c] == old(V[r, c])
    ensures var (v0, v1) := Endpoints(e);
      forall r, c :: r == 18 + e && 6 * v0 + 1 <= c < 6 * v0 + 3 ==> V[r, c] == EdgeEntry(e, true, c - 6 * v0)
    ensures var (v0, v1) := Endpoints(e);
      forall r, c :: r == 18 + e && 6 * v1 + 1 <= c < 6 * v1 + 3 ==> V[r, c] == EdgeEntry(e, false, c - 6 * v1)
  {
    var (v0, v1) := Endpoints(e);
    var row := 18 + e;
    for i := 0 to 2
      invariant forall r, c :: 0 <= r < RawDofs && 0 <= c < Dofs
                               && !(r == row && (6 * v0 + 1 <= c < 6 * v0 + 1 + i || 6 * v1 + 1 <= c < 6 * v1 + 1 + i)) ==>
        V[r, c] == old(V[r, c])
      invariant forall r, c :: r == row && 6 * v0 + 1 <= c < 6 * v0 + 1 + i ==> V[r, c] == EdgeEntry(e, true, c - 6 * v0)
      invariant forall r, c :: r == row && 6 * v1 + 1 <= c < 6 * v1 + 1 + i ==> V[r, c] == EdgeEntry(e, false, c - 6 * v1)
    {
      V[row, 6 * v0 + 1 + i] := Division(Product(Literal(-1), Product(foo, Indexed(PTS, [e, i]))), Literal(42));
      V[row, 6 * v1 + 1 + i] := V[row, 6 * v0 + 1 + i];
      assert V[row, 6 * v0 + 1 + i] == EdgeEntry(e, true, 1 + i) == EdgeEntry(e, false, 1 + i);
    }
  }

  /** Writes the second-derivative entries of edge-constraint row 18+e:
      v0 gets -pel·foo·τ_i/252 and v1 pel·foo·τ_i/252; nothing else changes. */
  method WriteEdgeSecondDerivatives(V: array2<Expr>, e: nat, foo: Expr)
    requires V.Length0 == RawDofs && V.Length1 == Dofs && e < 3 && foo == Flux(e)
    modifies V
    ensures var (v0, v1) := Endpoints(e);
      forall r, c :: 0 <= r < RawDofs && 0 <= c < Dofs
                     && !(r == 18 + e && (6 * v0 + 3 <= c < 6 * v0 + 6 || 6 * v1 + 3 <= c < 6 * v1 + 6)) ==>
        V[r, c] == old(V[r, c])
    ensures var (v0, v1) := Endpoints(e);
      forall r, c :: r == 18 + e && 6 * v0 + 3 <= c < 6 * v0 + 6 ==> V[r, c] == EdgeEntry(e, true, c - 6 * v0)
    ensures var (v0, v1) := Endpoints(e);
      forall r, c :: r == 18 + e && 6 * v1 + 3 <= c < 6 * v1 + 6 ==> V[r, c] == EdgeEntry(e, false, c - 6 * v1)
  {
    var (v0, v1) := Endpoints(e);
    var row := 18 + e;
    var tau := Tau(e);
    for i := 0 to 3
      invariant forall r, c :: 0 <= r < RawDofs && 0 <= c < Dofs
                               && !(r == row && (6 * v0 + 3 <= c < 6 * v0 + 3 + i || 6 * v1 + 3 <= c < 6 * v1 + 3 + i)) ==>
        V[r, c] == old(V[r, c])
      invariant forall r, c :: r == row && 6 * v0 + 3 <= c < 6 * v0 + 3 + i ==> V[r, c] == EdgeEntry(e, true, c - 6 * v0)
      invariant forall r, c :: r == row && 6 * v1 + 3 <= c < 6 * v1 + 3 + i ==> V[r, c] == EdgeEntry(e, false, c - 6 * v1)
    {
      V[row, 6 * v0 + 3 + i] := Division(Product(Literal(-1), Product(Indexed(PEL, [e]), Product(foo, tau[i]))), Literal(252));
      V[row, 6 * v1 + 3 + i] := Division(Product(Indexed(PEL, [e]), Product(foo, tau[i])), Literal(252));
      assert V[row, 6 * v0 + 3 + i] == EdgeEntry(e, true, 3 + i);
      assert V[row, 6 * v1 + 3 + i] == EdgeEntry(e, false, 3 + i);
    }
  }

  /** Writes edge-constraint row 18+e into the columns of the edge's endpoints;
      every other entry is left as it was. */
  method WriteEdgeRow(V: array2<Expr>, e: nat)
    requires V.Length0 == RawDofs && V.Length1 == Dofs && e < 3
    requires forall r, c :: r == 18 + e && 0 <= c < Dofs ==> V[r, c] == Literal(0)
    modifies V
    ensures forall r, c :: 0 <= r < RawDofs && 0 <= c < Dofs && r != 18 + e ==> V[r, c] == old(V[r, c])
    ensures var (v0, v1) := Endpoints(e);
      forall r, c :: r == 18 + e && 0 <= c < Dofs ==>
        V[r, c] ==
          if 6 * v0 <= c < 6 * v0 + 6 then EdgeEntry(e, true, c - 6 * v0)
          else if 6 * v1 <= c < 6 * v1 + 6 then EdgeEntry(e, false, c - 6 * v1)
          else Literal(0)
  {
    var (v0, v1) := Endpoints(e);
    var foo := Flux(e);
    var row := 18 + e;

    // vertex points
    V[row, 6 * v0] := Division(Product(Literal(-1), foo), Product(Literal(21), Indexed(PEL, [e])));
    V[row, 6 * v1] := Division(foo, Product(Literal(21), Indexed(PEL, [e])));
    assert V[row, 6 * v0] == EdgeEntry(e, true, 0) && V[row, 6 * v1] == EdgeEntry(e, false, 0);

    WriteEdgeFirstDerivatives(V, e, foo);
    WriteEdgeSecondDerivatives(V, e, foo);
  }

  /** Divides every entry of vertex v's derivative columns, in all 21 rows,
      by the vertex's cell size (first derivatives) or its square (second
      derivatives); value columns are not touched. */
  method Rescale(V: array2<Expr>)
    requires V.Length0 == RawDofs && V.Length1 == Dofs
    requires forall r, c :: 0 <= r < RawDofs && 0 <= c < Dofs ==> V[r, c] == Assembled(r, c)
    modifies V
    ensures forall r, c :: 0 <= r < RawDofs && 0 <= c < Dofs ==> V[r, c] == Scaled(r, c)
  {
    for v := 0 to Vertices
      invariant forall r, c :: 0 <= r < RawDofs && 0 <= c < Dofs ==>
        V[r, c] == if c < 6 * v then Scaled(r, c) else Assembled(r, c)
    {
      assert (6 * v) % 6 == 0;
      for k := 0 to 2
        invariant forall r, c :: 0 <= r < RawDofs && 0 <= c < Dofs ==>
          V[r, c] == if c < 6 * v + 1 + k then Scaled(r, c) else Assembled(r, c)
      {
        var col := 6 * v + 1 + k;
        assert col % 6 == 1 + k && col / 6 == v;
        for i := 0 to RawDofs
          invariant forall r, c :: 0 <= r < RawDofs && 0 <= c < Dofs ==>
            V[r, c] == if c < col || (c == col && r < i) then Scaled(r, c) else Assembled(r, c)
        {
          V[i, col] := Division(V[i, col], Indexed(H, [v]));
        }
      }
      for k := 0 to 3
        invariant forall r, c :: 0 <= r < RawDofs && 0 <= c < Dofs ==>
          V[r, c] == if c < 6 * v + 3 + k then Scaled(r, c) else Assembled(r, c)
      {
        var col := 6 * v + 3 + k;
        assert col % 6 == 3 + k && col / 6 == v;
        for i := 0 to RawDofs
          invariant forall r, c :: 0 <= r < RawDofs && 0 <= c < Dofs ==>
            V[r, c] == if c < col || (c == col && r < i) then Scaled(r, c) else Assembled(r, c)
        {
          V[i, col] := Division(V[i, col], Power(Indexed(H, [v]), Literal(2)));
        }
      }
    }
  }

  /** Builds V in place (zeros, vertex blocks, edge rows, scaling) and returns
      its transpose packed as one tensor: row c, column r of the result is
      the scaled entry V[r, c]. */
  method BasisTransformation() returns (result: ListTensor)
    ensures IsMatrix(result.entries, Dofs, RawDofs)
    ensures forall c, r :: 0 <= c < Dofs && 0 <= r < RawDofs ==> result.entries[c][r] == Scaled(r, c)
  {
    var V := new Expr[RawDofs, Dofs];
    FillZero(V);

    for v := 0 to Vertices
      invariant forall r, c :: 0 <= r < RawDofs && 0 <= c < Dofs ==>
        V[r, c] == if r < 6 * v then Assembled(r, c) else Literal(0)
    {
      WriteVertexBlock(V, v);
      forall r, c | 6 * v <= r < 6 * v + 6 && 0 <= c < Dofs
        ensures V[r, c] == Assembled(r, c)
      {
        VertexRow(v, r - 6 * v, c);
      }
    }

    for e := 0 to 3
      invariant forall r, c :: 0 <= r < RawDofs && 0 <= c < Dofs ==>
        V[r, c] == if r < 18 + e then Assembled(r, c) else Literal(0)
    {
      WriteEdgeRow(V, e);
      forall r, c | r == 18 + e && 0 <= c < Dofs
        ensures V[r, c] == Assembled(r, c)
      {
        EdgeRow(e, c);
      }
    }

    Rescale(V);

    var rows := seq(RawDofs, r requires 0 <= r < RawDofs reads V =>
                      seq(Dofs, c requires 0 <= c < Dofs reads V => V[r, c]));
    result := ListTensor(Transpose(rows, RawDofs, Dofs));
  }
}
