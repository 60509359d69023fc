/** Topology of the 1-D spin chain `OneDimensionalSpinChain`: coordinates are
    the integers `0 .. shape - 1`, `pbc` switches on the periodic wraparound. */
module ChainTopology {
  import opened Outcomes

  type Pair = (int, int)

  /** `is_adjacent_coord`: its assertion fails on equal coordinates; otherwise
      two coordinates are adjacent when they lie one apart, or, with periodic
      boundaries, also `shape - 1` apart. */
  function IsAdjacentCoord(shape: int, pbc: bool, c1: int, c2: int): (r: Result<bool>)
    ensures r.Err? <==> c1 == c2
    ensures r.Err? ==> r.error == AssertionError
  {
    var diff := c1 - c2;
    if diff == 0 then Err(AssertionError)
    else if pbc then Ok(Abs(diff) == 1 || Abs(diff) == shape - 1)
    else Ok(Abs(diff) == 1)
  }

  /** The coordinates one step away from `c`, wrapping round when `pbc`. */
  ghost predicate Step(shape: int, pbc: bool, c1: int, c2: int)
  {
    c2 == c1 + 1 || c2 == c1 - 1 ||
    (pbc && (c2 == c1 + (shape - 1) || c2 == c1 - (shape - 1)))
  }

  /** Adjacency as written is exactly the one-step relation. */
  lemma IsAdjacentCoordIsStep(shape: int, pbc: bool, c1: int, c2: int)
    requires shape >= 1 && c1 != c2
    ensures IsAdjacentCoord(shape, pbc, c1, c2) == Ok(Step(shape, pbc, c1, c2))
  {
  }

  lemma IsAdjacentCoordSymmetric(shape: int, pbc: bool, c1: int, c2: int)
    ensures IsAdjacentCoord(shape, pbc, c1, c2) == IsAdjacentCoord(shape, pbc, c2, c1)
  {
  }

  /** `get_coord_neighbors`. */
  function CoordNeighbors(shape: int, pbc: bool, c: int): (r: seq<int>)
    ensures |r| == (if !pbc && (c == 0 || c == shape - 1) then 1 else 2)
  {
    if pbc then
      if c == 0 then [shape - 1, 1]
      else if c == shape - 1 then [shape - 2, 0]
      else [c - 1, c + 1]
    else
      if c == 0 then [1]
      else if c == shape - 1 then [shape - 2]
      else [c - 1, c + 1]
  }

  /** On a chain of two or more sites every neighbour of a site is a site of
      the chain and adjacent to it. */
  lemma NeighborsAdjacent(shape: int, pbc: bool, c: int, k: nat)
    requires shape >= 2 && 0 <= c < shape
    requires k < |CoordNeighbors(shape, pbc, c)|
    ensures 0 <= CoordNeighbors(shape, pbc, c)[k] < shape
    ensures IsAdjacentCoord(shape, pbc, c, CoordNeighbors(shape, pbc, c)[k]) == Ok(true)
  {
  }

  lemma NeighborsInChain(shape: int, pbc: bool, c: int)
    requires shape >= 2 && 0 <= c < shape
    ensures forall k :: 0 <= k < |CoordNeighbors(shape, pbc, c)| ==> 0 <= CoordNeighbors(shape, pbc, c)[k] < shape
  {
  }

  /** Within the chain, `is_adjacent_coord` and `get_coord_neighbors` agree:
      `c2` is adjacent to `c1` exactly when it is listed among its neighbours. */
  lemma AdjacentIffNeighbor(shape: int, pbc: bool, c1: int, c2: int)
    requires 0 <= c1 < shape && 0 <= c2 < shape && c1 != c2
    ensures IsAdjacentCoord(shape, pbc, c1, c2) == Ok(c2 in CoordNeighbors(shape, pbc, c1))
  {
  }

  /** On a chain of one site the neighbour list reaches past the chain. */
  lemma SingleSiteNeighborOutside(pbc: bool)
    ensures 1 in CoordNeighbors(1, pbc, 0)
  {
  }

  /** The list `get_adjacent_coord_pairs` builds: the wraparound pair
      `(shape - 1, 0)` first when `pbc`, then `(i, i + 1)` for every `i < shape - 1`. */
  function ChainPairs(shape: int, pbc: bool): seq<Pair>
  {
    (if pbc then [(shape - 1, 0)] else []) + seq(Nat(shape - 1), i => (i, i + 1))
  }

  /** `get_adjacent_coord_pairs`, with its closing assertion on the number of
      pairs, which holds exactly when the chain has at least one site. */
  method AdjacentCoordPairs(shape: int, pbc: bool) returns (r: Result<seq<Pair>>)
    ensures r.Ok? <==> shape >= 1
    ensures r.Ok? ==> r.value == ChainPairs(shape, pbc)
    ensures r.Err? ==> r.error == AssertionError
  {
    var size := shape;
    var pairs: seq<Pair> := if pbc then [(size - 1, 0)] else [];
    var i := 0;
    while i < size - 1
      invariant 0 <= i <= Nat(size - 1)
      invariant pairs == (if pbc then [(shape - 1, 0)] else []) + seq(i, k => (k, k + 1))
    {
      pairs := pairs + [(i, i + 1)];
      i := i + 1;
    }
    if pbc && |pairs| != size {
      return Err(AssertionError);
    } else if !pbc && |pairs| != size - 1 {
      return Err(AssertionError);
    }
    return Ok(pairs);
  }

  /** A chain has `shape` edges with periodic boundaries and `shape - 1` without. */
  lemma ChainPairsCount(shape: int, pbc: bool)
    requires shape >= 1
    ensures |ChainPairs(shape, pbc)| == if pbc then shape else shape - 1
  {
  }

  /** The periodic list opens with the wraparound pair, then `(i, i + 1)`. */
  lemma ChainPairsAt(shape: int, pbc: bool, k: nat)
    requires shape >= 1 && k < |ChainPairs(shape, pbc)|
    ensures pbc && k == 0 ==> ChainPairs(shape, pbc)[k] == (shape - 1, 0)
    ensures pbc && k > 0 ==> ChainPairs(shape, pbc)[k] == (k - 1, k)
    ensures !pbc ==> ChainPairs(shape, pbc)[k] == (k, k + 1)
  {
  }

  /** On a chain of one or more sites every listed pair joins two sites of the chain. */
  lemma ChainPairsInChain(shape: int, pbc: bool)
    requires shape >= 1
    ensures forall k :: 0 <= k < |ChainPairs(shape, pbc)| ==>
      0 <= ChainPairs(shape, pbc)[k].0 < shape && 0 <= ChainPairs(shape, pbc)[k].1 < shape
  {
  }

  /** On a chain of two or more sites every listed pair joins two sites of
      the chain that are adjacent. */
  lemma ChainPairsAdjacent(shape: int, pbc: bool, k: nat)
    requires shape >= 2 && k < |ChainPairs(shape, pbc)|
    ensures 0 <= ChainPairs(shape, pbc)[k].0 < shape
    ensures 0 <= ChainPairs(shape, pbc)[k].1 < shape
    ensures IsAdjacentCoord(shape, pbc, ChainPairs(shape, pbc)[k].0, ChainPairs(shape, pbc)[k].1) == Ok(true)
  {
  }

  /** How many pairs of `ps` have `c` as an end. */
  function Degree(ps: seq<Pair>, c: int): nat
  {
    if ps == [] then 0
    else Degree(ps[..|ps| - 1], c) + (if ps[|ps| - 1].0 == c || ps[|ps| - 1].1 == c then 1 else 0)
  }

  lemma {:induction false} DegreeAppend(ps: seq<Pair>, qs: seq<Pair>, c: int)
    ensures Degree(ps + qs, c) == Degree(ps, c) + Degree(qs, c)
    decreases |qs|
  {
    if qs == [] {
      assert ps + qs == ps;
    } else {
      assert (ps + qs)[..|ps + qs| - 1] == ps + qs[..|qs| - 1];
      DegreeAppend(ps, qs[..|qs| - 1], c);
    }
  }

  /** In the run `(0, 1), (1, 2), .., (n - 1, n)` a coordinate ends the pair to
      its left and starts the pair to its right. */
  lemma {:induction false} RunDegree(n: nat, c: int)
    ensures Degree(seq(n, i => (i, i + 1)), c) ==
            (if 1 <= c <= n then 1 else 0) + (if 0 <= c < n then 1 else 0)
  {
    if n > 0 {
      assert seq(n, i => (i, i + 1))[..n - 1] == seq(n - 1, i => (i, i + 1));
      RunDegree(n - 1, c);
    }
  }

  /** Every site of a chain lies on as many edges as it has neighbours: two on
      a periodic chain of three or more sites; on an open chain of two or more,
      one at either end and two inside. */
  lemma {:induction false} ChainDegree(shape: int, pbc: bool, c: int)
    requires 0 <= c < shape
    requires if pbc then shape >= 3 else shape >= 2
    ensures Degree(ChainPairs(shape, pbc), c) == |CoordNeighbors(shape, pbc, c)|
    ensures pbc ==> Degree(ChainPairs(shape, pbc), c) == 2
  {
    var head: seq<Pair> := if pbc then [(shape - 1, 0)] else [];
    DegreeAppend(head, seq(shape - 1, i => (i, i + 1)), c);
    RunDegree(shape - 1, c);
    assert head == [] || head[..0] == [];
  }
}
