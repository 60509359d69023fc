/** Topology of the square lattice `TwoDimensionalSpinLattice`: coordinates
    are the pairs `(i, j)` with `0 <= i, j < shape`, `pbc` switches on the
    periodic wraparound. */
module LatticeTopology {
  import opened Outcomes

  type Coord = (int, int)
  type Pair = (Coord, Coord)

  /** `is_adjacent_coord` of the lattice: its assertion fails on equal
      coordinates; otherwise it asks for a step in BOTH axes, of length one or,
      with periodic boundaries, `shape - 1`. */
  function IsAdjacentCoord(shape: int, pbc: bool, c1: Coord, c2: Coord): (r: Result<bool>)
    ensures r.Err? <==> c1 == c2
    ensures r.Err? ==> r.error == AssertionError
  {
    var dx := c1.0 - c2.0;
    var dy := c1.1 - c2.1;
    if dx == 0 && dy == 0 then Err(AssertionError)
    else if pbc then
      Ok((Abs(dx) == 1 || Abs(dx) == shape - 1) && (Abs(dy) == 1 || Abs(dy) == shape - 1))
    else
      Ok(Abs(dx) == 1 && Abs(dy) == 1)
  }

  ghost predicate AxisStep(shape: int, pbc: bool, a: int, b: int)
  {
    b == a + 1 || b == a - 1 || (pbc && (b == a + (shape - 1) || b == a - (shape - 1)))
  }

  /** Adjacency as written is a diagonal step: one step along each axis. */
  lemma IsAdjacentCoordIsDiagonal(shape: int, pbc: bool, c1: Coord, c2: Coord)
    requires shape >= 1 && c1 != c2
    ensures IsAdjacentCoord(shape, pbc, c1, c2) ==
            Ok(AxisStep(shape, pbc, c1.0, c2.0) && AxisStep(shape, pbc, c1.1, c2.1))
  {
  }

  lemma IsAdjacentCoordSymmetric(shape: int, pbc: bool, c1: Coord, c2: Coord)
    ensures IsAdjacentCoord(shape, pbc, c1, c2) == IsAdjacentCoord(shape, pbc, c2, c1)
  {
  }

  // ---- the coordinate list [(i, j) for i in range(shape) for j in range(shape)]

  function Row(shape: int, i: int): seq<Coord>
  {
    seq(Nat(shape), j => (i, j))
  }

  /** The first `n` rows of the coordinate list. */
  function Rows(shape: int, n: nat): seq<Coord>
  {
    if n == 0 then [] else Rows(shape, n - 1) + Row(shape, n - 1)
  }

  function CoordList(shape: int): seq<Coord>
  {
    Rows(shape, Nat(shape))
  }

  /** Position `k` of the list holds the coordinate `(i, j)` with `k == i * shape + j`. */
  lemma {:induction false} RowsContents(shape: int, n: nat)
    requires shape >= 1
    ensures |Rows(shape, n)| == n * shape
    ensures forall k :: 0 <= k < |Rows(shape, n)| ==>
      0 <= Rows(shape, n)[k].0 < n && 0 <= Rows(shape, n)[k].1 < shape &&
      Rows(shape, n)[k].0 * shape + Rows(shape, n)[k].1 == k
  {
    if n > 0 {
      RowsContents(shape, n - 1);
      assert |Rows(shape, n)| == (n - 1) * shape + shape;
    }
  }

  /** The coordinate list enumerates the grid row by row:
      `_coord_list[i * shape + j] == (i, j)`, and `_coord_list.index((i, j))`
      is `i * shape + j` inside the grid and a ValueError outside it. */
  lemma CoordListIndex(shape: int, c: Coord)
    requires shape >= 1
    ensures |CoordList(shape)| == shape * shape
    ensures IndexOf(CoordList(shape), c) ==
            if InGrid(shape, c) then Ok(c.0 * shape + c.1) else Err(ValueError)
  {
    var cs := CoordList(shape);
    RowsContents(shape, shape);
    if InGrid(shape, c) {
      var k := c.0 * shape + c.1;
      GridPosition(shape, c.0, c.1);
      assert forall k' :: 0 <= k' < k ==> cs[k'] != c;
      if cs[k] != c {
        PositionUnique(shape, c.0, c.1, cs[k].0, cs[k].1);
      }
      IndexOfFirst(cs, c, k);
    } else {
      assert c !in cs;
    }
  }

  lemma GridPosition(shape: int, i: int, j: int)
    requires 0 <= i < shape && 0 <= j < shape
    ensures 0 <= i * shape + j < shape * shape
  {
    assert i * shape <= (shape - 1) * shape;
  }

  lemma PositionUnique(shape: int, i: int, j: int, i2: int, j2: int)
    requires 0 <= j < shape && 0 <= j2 < shape
    requires i * shape + j == i2 * shape + j2
    ensures i == i2 && j == j2
  {
    if i < i2 {
      MulAtLeast(i2 - i, shape);
    } else if i > i2 {
      MulAtLeast(i - i2, shape);
    }
  }

  lemma {:induction false} MulAtLeast(d: int, s: int)
    requires d >= 1 && s >= 0
    ensures d * s >= s
  {
    if d > 1 {
      MulAtLeast(d - 1, s);
      assert d * s == (d - 1) * s + s;
    }
  }

  ghost predicate InGrid(shape: int, c: Coord)
  {
    0 <= c.0 < shape && 0 <= c.1 < shape
  }

  // ---- the pair list of get_adjacent_coord_pairs

  /** The first `n` rounds of the periodic loop: `((0, i), (shape - 1, i))`
      and `((i, i), (i, shape - 1))` for `i < n`. */
  function WrapPairs(shape: int, n: nat): seq<Pair>
  {
    if n == 0 then []
    else WrapPairs(shape, n - 1) + [((0, n - 1), (shape - 1, n - 1)), ((n - 1, n - 1), (n - 1, shape - 1))]
  }

  /** Row `i` of the interior loop, for `j < n`: `((i, j), (i + 1, j))` and `((i, j), (i, j + 1))`. */
  function InteriorRow(i: int, n: nat): seq<Pair>
  {
    if n == 0 then []
    else InteriorRow(i, n - 1) + [((i, n - 1), (i + 1, n - 1)), ((i, n - 1), (i, n))]
  }

  /** The first `n` rows of the interior loop. */
  function InteriorRows(shape: int, n: nat): seq<Pair>
  {
    if n == 0 then [] else InteriorRows(shape, n - 1) + InteriorRow(n - 1, Nat(shape - 1))
  }

  /** The first `n` rounds of the edge loop along the last row and the last column. */
  function EdgePairs(shape: int, n: nat): seq<Pair>
  {
    if n == 0 then []
    else EdgePairs(shape, n - 1) + [((shape - 1, n - 1), (shape - 1, n)), ((n - 1, shape - 1), (n, shape - 1))]
  }

  /** The list `get_adjacent_coord_pairs` builds. */
  function LatticePairs(shape: int, pbc: bool): seq<Pair>
  {
    (if pbc then WrapPairs(shape, Nat(shape)) else []) +
    InteriorRows(shape, Nat(shape - 1)) + EdgePairs(shape, Nat(shape - 1))
  }

  /** The periodic loop of `get_adjacent_coord_pairs`, appending to `pairs`. */
  method AppendWrapPairs(shape: int, pairs: seq<Pair>) returns (r: seq<Pair>)
    ensures r == pairs + WrapPairs(shape, Nat(shape))
  {
    r := pairs;
    var i := 0;
    while i < shape
      invariant 0 <= i <= Nat(shape)
      invariant r == pairs + WrapPairs(shape, i)
    {
      r := r + [((0, i), (shape - 1, i))];
      r := r + [((i, i), (i, shape - 1))];
      i := i + 1;
    }
  }

  /** The nested interior loops of `get_adjacent_coord_pairs`, appending to `pairs`. */
  method AppendInteriorPairs(shape: int, pairs: seq<Pair>) returns (r: seq<Pair>)
    ensures r == pairs + InteriorRows(shape, Nat(shape - 1))
  {
    r := pairs;
    var i := 0;
    while i < shape - 1
      invariant 0 <= i <= Nat(shape - 1)
      invariant r == pairs + InteriorRows(shape, i)
    {
      var j := 0;
      while j < shape - 1
        invariant 0 <= j <= Nat(shape - 1)
        invariant r == pairs + InteriorRows(shape, i) + InteriorRow(i, j)
      {
        r := r + [((i, j), (i + 1, j))];
        r := r + [((i, j), (i, j + 1))];
        j := j + 1;
      }
      i := i + 1;
    }
  }

  /** The loop of `get_adjacent_coord_pairs` along the last row and column, appending to `pairs`. */
  method AppendEdgePairs(shape: int, pairs: seq<Pair>) returns (r: seq<Pair>)
    ensures r == pairs + EdgePairs(shape, Nat(shape - 1))
  {
    r := pairs;
    var i := 0;
    while i < shape - 1
      invariant 0 <= i <= Nat(shape - 1)
      invariant r == pairs + EdgePairs(shape, i)
    {
      r := r + [((shape - 1, i), (shape - 1, i + 1))];
      r := r + [((i, shape - 1), (i + 1, shape - 1))];
      i := i + 1;
    }
  }

  /** `get_adjacent_coord_pairs`, with its closing assertion on the number of
      pairs, which holds exactly when `shape` is not negative. */
  method AdjacentCoordPairs(shape: int, pbc: bool) returns (r: Result<seq<Pair>>)
    ensures r.Ok? <==> shape >= 0
    ensures r.Ok? ==> r.value == LatticePairs(shape, pbc)
    ensures r.Err? ==> r.error == AssertionError
  {
    var size := shape * shape;
    var pairs: seq<Pair> := [];
    if pbc {
      pairs := AppendWrapPairs(shape, pairs);
    }
    pairs := AppendInteriorPairs(shape, pairs);
    pairs := AppendEdgePairs(shape, pairs);
    assert pairs == LatticePairs(shape, pbc);
    LatticePairsCount(shape, pbc);
    assert shape < 0 ==> size > 0 && size - shape > 0 by {
      if shape < 0 {
        MulAtLeast(-shape, -shape);
      }
    }
    if pbc && |pairs| != 2 * size {
      return Err(AssertionError);
    } else if !pbc && |pairs| != 2 * size - 2 * shape {
      return Err(AssertionError);
    }
    return Ok(pairs);
  }

  lemma {:induction false} PiecesCount(shape: int, n: nat)
    ensures |WrapPairs(shape, n)| == 2 * n
    ensures |EdgePairs(shape, n)| == 2 * n
  {
    if n > 0 {
      PiecesCount(shape, n - 1);
    }
  }

  lemma {:induction false} InteriorRowCount(i: int, n: nat)
    ensures |InteriorRow(i, n)| == 2 * n
  {
    if n > 0 {
      InteriorRowCount(i, n - 1);
    }
  }

  lemma {:induction false} InteriorRowsCount(shape: int, n: nat)
    ensures |InteriorRows(shape, n)| == 2 * n * Nat(shape - 1)
  {
    if n > 0 {
      InteriorRowsCount(shape, n - 1);
      InteriorRowCount(n - 1, Nat(shape - 1));
    }
  }

  /** A lattice has `2 * shape * shape` edges with periodic boundaries and
      `2 * shape * shape - 2 * shape` without; a negative `shape` lists none. */
  lemma LatticePairsCount(shape: int, pbc: bool)
    ensures |LatticePairs(shape, pbc)| ==
            if shape < 0 then 0
            else if pbc then 2 * (shape * shape)
            else 2 * (shape * shape) - 2 * shape
  {
    PiecesCount(shape, Nat(shape));
    PiecesCount(shape, Nat(shape - 1));
    InteriorRowsCount(shape, Nat(shape - 1));
    if shape >= 1 {
      assert 2 * shape + 2 * (shape - 1) * (shape - 1) + 2 * (shape - 1) == 2 * (shape * shape);
    }
  }

  /** One step to the right in exactly one axis. */
  ghost predicate UnitStep(p: Pair)
  {
    p.1 == (p.0.0 + 1, p.0.1) || p.1 == (p.0.0, p.0.1 + 1)
  }

  ghost predicate GridStep(shape: int, p: Pair)
  {
    InGrid(shape, p.0) && InGrid(shape, p.1) && UnitStep(p)
  }

  lemma {:induction false} InteriorRowSteps(shape: int, i: int, n: nat)
    requires 0 <= i < shape - 1 && n <= shape - 1
    ensures forall p :: p in InteriorRow(i, n) ==> GridStep(shape, p)
  {
    if n > 0 {
      InteriorRowSteps(shape, i, n - 1);
    }
  }

  lemma {:induction false} InteriorRowsSteps(shape: int, n: nat)
    requires n <= shape - 1
    ensures forall p :: p in InteriorRows(shape, n) ==> GridStep(shape, p)
  {
    if n > 0 {
      InteriorRowsSteps(shape, n - 1);
      InteriorRowSteps(shape, n - 1, shape - 1);
    }
  }

  lemma {:induction false} EdgePairsSteps(shape: int, n: nat)
    requires n <= shape - 1
    ensures forall p :: p in EdgePairs(shape, n) ==> GridStep(shape, p)
  {
    if n > 0 {
      EdgePairsSteps(shape, n - 1);
    }
  }

  /** With open boundaries every listed pair joins two grid sites that differ
      by one in exactly one axis. */
  lemma OpenPairsAreGridSteps(shape: int, p: Pair)
    requires p in LatticePairs(shape, false)
    ensures GridStep(shape, p)
  {
    InteriorRowsSteps(shape, Nat(shape - 1));
    EdgePairsSteps(shape, Nat(shape - 1));
  }

  /** The periodic extras, as written: round `i` adds `((0, i), (shape - 1, i))`
      and then `((i, i), (i, shape - 1))`. */
  lemma {:induction false} WrapPairsAt(shape: int, n: nat, i: nat)
    requires i < n
    ensures |WrapPairs(shape, n)| == 2 * n
    ensures WrapPairs(shape, n)[2 * i] == ((0, i), (shape - 1, i))
    ensures WrapPairs(shape, n)[2 * i + 1] == ((i, i), (i, shape - 1))
  {
    PiecesCount(shape, n);
    if i < n - 1 {
      WrapPairsAt(shape, n - 1, i);
    }
  }

  /** The periodic list starts with the wrap pairs, and the last of them pairs
      the corner `(shape - 1, shape - 1)` with itself. */
  lemma PeriodicPairsWrapFirst(shape: int, i: nat)
    requires i < shape
    ensures 2 * shape <= |LatticePairs(shape, true)|
    ensures LatticePairs(shape, true)[2 * i] == ((0, i), (shape - 1, i))
    ensures LatticePairs(shape, true)[2 * i + 1] == ((i, i), (i, shape - 1))
    ensures LatticePairs(shape, true)[2 * shape - 1] == ((shape - 1, shape - 1), (shape - 1, shape - 1))
  {
    WrapPairsAt(shape, shape, i);
    WrapPairsAt(shape, shape, shape - 1);
  }

  lemma {:induction false} WrapPairsInGrid(shape: int, n: nat)
    requires n <= shape
    ensures forall p :: p in WrapPairs(shape, n) ==> InGrid(shape, p.0) && InGrid(shape, p.1)
  {
    if n > 0 {
      WrapPairsInGrid(shape, n - 1);
    }
  }

  /** Every listed pair joins two grid sites, with either boundary. */
  lemma LatticePairsInGrid(shape: int, pbc: bool, p: Pair)
    requires p in LatticePairs(shape, pbc)
    ensures InGrid(shape, p.0) && InGrid(shape, p.1)
  {
    InteriorRowsSteps(shape, Nat(shape - 1));
    EdgePairsSteps(shape, Nat(shape - 1));
    WrapPairsInGrid(shape, Nat(shape));
  }

  lemma {:induction false} WrapPairsNotAdjacent(shape: int, n: nat)
    requires n <= shape
    ensures forall p :: p in WrapPairs(shape, n) ==> IsAdjacentCoord(shape, true, p.0, p.1) != Ok(true)
  {
    if n > 0 {
      WrapPairsNotAdjacent(shape, n - 1);
    }
  }

  /** Because adjacency as written asks for a diagonal step, no pair the
      lattice lists is ever adjacent: each is reported non-adjacent or, for a
      pair of equal coordinates, fails the assertion. */
  lemma LatticePairsNeverAdjacent(shape: int, pbc: bool, p: Pair)
    requires p in LatticePairs(shape, pbc)
    ensures IsAdjacentCoord(shape, pbc, p.0, p.1) != Ok(true)
  {
    InteriorRowsSteps(shape, Nat(shape - 1));
    EdgePairsSteps(shape, Nat(shape - 1));
    WrapPairsNotAdjacent(shape, Nat(shape));
  }
}
