/** The Bell element itself (finat/bell.py, class Bell): the degree check made
    at construction, and the dof layout that exposes 18 vertex dofs and hides
    the three edge-constraint rows of the 21-row transformation matrix. */
module BellElement {
  import BellMatrix

  datatype Result<T, E> = Success(value: T) | Failure(error: E)

  /** The error construction raises, with the message it carries. */
  datatype ConfigError = ValueError(message: string)

  /** A constructed Bell element: C1 quintic on triangles. */
  datatype Bell = Bell(degree: nat)

  const SupportedDegree: nat := 5

  /** Construction fails exactly when the degree is not 5. The message text
      names degree 3, but the condition tested is degree 5. */
  function NewBell(degree: int): (r: Result<Bell, ConfigError>)
    ensures r.Failure? <==> degree != SupportedDegree
    ensures r.Success? ==> r.value.degree == degree
  {
    if degree != 5 then Failure(ValueError("Degree must be 3 for Bell element"))
    else Success(Bell(5))
  }

  /** lo, lo+1, ..., hi-1 */
  function Range(lo: nat, hi: nat): (s: seq<nat>)
    requires lo <= hi
    ensures |s| == hi - lo
    ensures forall i :: 0 <= i < |s| ==> s[i] == lo + i
    ensures forall k :: k in s <==> lo <= k < hi
    decreases hi - lo
  {
    if lo == hi then [] else [lo] + Range(lo + 1, hi)
  }

  /** For each entity dimension and entity number, the dofs that belong to
      that entity: six per vertex, none on edges or in the interior. */
  function EntityDofs(): (d: map<nat, map<nat, seq<nat>>>)
    ensures d.Keys == {0, 1, 2}
    ensures d[0].Keys == {0, 1, 2} && d[1].Keys == {0, 1, 2} && d[2].Keys == {0}
    ensures forall v, k :: v in d[0] ==> (k in d[0][v] <==> 6 * v <= k < 6 * v + 6)
    ensures forall dim, id :: dim in d && dim != 0 && id in d[dim] ==> d[dim][id] == []
  {
    map[0 := map[0 := Range(0, 6), 1 := Range(6, 12), 2 := Range(12, 18)],
        1 := map[0 := [], 1 := [], 2 := []],
        2 := map[0 := []]]
  }

  /** Every dof EntityDofs lists, entity by entity in increasing dimension
      and number. */
  function ListedDofs(): (s: seq<nat>)
  {
    var d := EntityDofs();
    d[0][0] + d[0][1] + d[0][2] + d[1][0] + d[1][1] + d[1][2] + d[2][0]
  }

  /** The number of physical dofs, which is the number of dofs EntityDofs
      lists and the number of columns of the transformation matrix. */
  function SpaceDimension(): (n: nat)
    ensures n == |ListedDofs()|
    ensures n == BellMatrix.Dofs
  {
    18
  }

  /** The shape of the element's dof index: one axis of SpaceDimension() dofs. */
  function IndexShape(): (s: seq<nat>)
    ensures s == [SpaceDimension()]
  {
    [18]
  }

  /** Consecutive ranges concatenate to one range. */
  lemma RangeAppend(a: nat, b: nat, c: nat)
    requires a <= b <= c
    ensures Range(a, b) + Range(b, c) == Range(a, c)
  {
  }

  /** Listed entity by entity, the dofs are exactly 0, 1, ..., 17 in order:
      each appears once, so the three vertex groups partition them and the
      three auxiliary rows 18-20 are not listed. */
  lemma ListedDofsAreAllOnce()
    ensures ListedDofs() == Range(0, SpaceDimension())
  {
    assert ListedDofs() == Range(0, 6) + Range(6, 12) + Range(12, 18);
    RangeAppend(0, 6, 12);
    RangeAppend(0, 12, 18);
  }

  /** The vertex whose block of the transformation matrix holds column k. */
  function BlockOf(k: nat): nat
  {
    k / 6
  }

  /** A dof belongs to a vertex exactly when it is a column of that vertex's
      block, so every dof below SpaceDimension() has exactly one owner; no
      listed dof reaches the three edge-constraint rows of the matrix. */
  lemma VertexDofsPartition()
    ensures forall k :: 0 <= k < SpaceDimension() ==> BlockOf(k) in EntityDofs()[0] && k in EntityDofs()[0][BlockOf(k)]
    ensures forall v, k :: v in EntityDofs()[0] && k in EntityDofs()[0][v] ==> v == BlockOf(k) && k < BellMatrix.RawDofs - 3
  {
    var d := EntityDofs();
    forall v, k | v in d[0] && k in d[0][v]
      ensures v == BlockOf(k) && k < BellMatrix.RawDofs - 3
    {
      assert 6 * v <= k < 6 * v + 6 && v < 3;
    }
  }
}
