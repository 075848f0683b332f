/** The symbolic expression nodes that the Bell element's change-of-basis
    matrix is built from. Nodes are immutable values compared structurally;
    nothing here evaluates them to numbers. */
module Gem {

  /** The opaque geometric tensors the coordinate mapping supplies:
      the Jacobian, the reference normals, the physical tangents,
      the physical edge lengths and the per-vertex cell sizes. */
  datatype Tensor = J | RNS | PTS | PEL | H

  /** The declared extents of each geometric tensor. */
  function Extents(t: Tensor): seq<nat>
  {
    match t
    case J => [2, 2]
    case RNS => [3, 2]
    case PTS => [3, 2]
    case PEL => [3]
    case H => [3]
  }

  datatype Expr =
    | Literal(value: int)
    | Indexed(tensor: Tensor, index: seq<nat>)
    | Product(left: Expr, right: Expr)
    | Sum(left: Expr, right: Expr)
    | Division(numerator: Expr, denominator: Expr)
    | Power(base: Expr, exponent: Expr)

  /** A tensor-valued node packing a matrix of scalar nodes, row by row. */
  datatype ListTensor = ListTensor(entries: seq<seq<Expr>>)

  /** A multi-index lies inside the tensor's declared extents. */
  predicate InBounds(t: Tensor, index: seq<nat>)
  {
    |index| == |Extents(t)| && forall k :: 0 <= k < |index| ==> index[k] < Extents(t)[k]
  }

  /** The tensor elements an expression selects, one pair per indexed leaf. */
  function Reads(e: Expr): set<(Tensor, seq<nat>)>
  {
    match e
    case Literal(_) => {}
    case Indexed(t, index) => {(t, index)}
    case Product(a, b) => Reads(a) + Reads(b)
    case Sum(a, b) => Reads(a) + Reads(b)
    case Division(a, b) => Reads(a) + Reads(b)
    case Power(a, b) => Reads(a) + Reads(b)
  }

  /** No selection in the expression can raise a shape error. */
  predicate WellIndexed(e: Expr)
  {
    forall p :: p in Reads(e) ==> InBounds(p.0, p.1)
  }

  predicate IsMatrix(m: seq<seq<Expr>>, rows: nat, cols: nat)
  {
    |m| == rows && forall i :: 0 <= i < rows ==> |m[i]| == cols
  }

  /** Transposition relabels the two indices; no entry is copied or changed. */
  function Transpose(m: seq<seq<Expr>>, rows: nat, cols: nat): (t: seq<seq<Expr>>)
    requires IsMatrix(m, rows, cols)
    ensures IsMatrix(t, cols, rows)
    ensures forall i, j :: 0 <= i < cols && 0 <= j < rows ==> t[i][j] == m[j][i]
  {
    seq(cols, i requires 0 <= i < cols => seq(rows, j requires 0 <= j < rows => m[j][i]))
  }

  /** Transposing twice gives back the original matrix. */
  lemma TransposeInvolution(m: seq<seq<Expr>>, rows: nat, cols: nat)
    requires IsMatrix(m, rows, cols)
    ensures Transpose(Transpose(m, rows, cols), cols, rows) == m
  {
    var t := Transpose(Transpose(m, rows, cols), cols, rows);
    forall i | 0 <= i < rows
      ensures t[i] == m[i]
    {
      assert |t[i]| == |m[i]| == cols;
    }
  }
}
