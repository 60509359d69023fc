/** What the `SpinSystem` base class of the Monte Carlo engine computes, as
    functions of the topology, the spin model and a snapshot `cfg` of the site
    configurations (`cfg[k]` is the configuration of the site with index `k`).

    The class in `MonteCarloSystem` runs the loops of the source; the functions
    here are their specification, and the lemmas say what they come to on a
    chain and on a square lattice. */
module MonteCarloEnergy {
  import opened Outcomes
  import opened Sums
  import ChainTopology
  import LatticeTopology

  /** The two concrete systems: `OneDimensionalSpinChain` and `TwoDimensionalSpinLattice`. */
  datatype Topology = Chain(shape: int, pbc: bool) | Lattice(shape: int, pbc: bool)

  /** A lattice position: an integer on the chain, a `(row, column)` pair on the lattice. */
  datatype Coord = Point(x: int) | Cell(row: int, col: int)

  /** The spin model's `get_config_int_energy(config1, config2, dist, factor)`
      and `get_field_energy(config, field)`; their code is not part of this
      model, so they enter as uninterpreted functions. */
  datatype SpinModel<!C> = SpinModel(pairEnergy: (C, C, int, real) -> real, fieldEnergy: (C, real) -> real)

  /** The subclasses' default `shape=10, is_pbc=True`. */
  const DefaultChain := Chain(10, true)
  const DefaultLattice := Lattice(10, true)

  /** `self.size`. */
  function Size(t: Topology): int
  {
    match t
    case Chain(s, _) => s
    case Lattice(s, _) => s * s
  }

  /** `self._coord_list`: `list(range(shape))` on the chain, the grid row by row on the lattice. */
  function CoordList(t: Topology): seq<Coord>
  {
    match t
    case Chain(s, _) => seq(Nat(s), i => Point(i))
    case Lattice(s, _) =>
      var cs := LatticeTopology.CoordList(s);
      seq(|cs|, k requires 0 <= k < |cs| => Cell(cs[k].0, cs[k].1))
  }

  /** The subclass's `is_adjacent_coord`; a coordinate of the other kind fails
      its `isinstance` assertion. */
  function IsAdjacentCoord(t: Topology, c1: Coord, c2: Coord): (r: Result<bool>)
    ensures r.Err? ==> r.error == AssertionError
    ensures r.Err? <==> c1 == c2 || c1.Point? != t.Chain? || c2.Point? != t.Chain?
  {
    match t
    case Chain(s, pbc) =>
      if c1.Point? && c2.Point? then ChainTopology.IsAdjacentCoord(s, pbc, c1.x, c2.x)
      else Err(AssertionError)
    case Lattice(s, pbc) =>
      if c1.Cell? && c2.Cell? then LatticeTopology.IsAdjacentCoord(s, pbc, (c1.row, c1.col), (c2.row, c2.col))
      else Err(AssertionError)
  }

  /** `is_adjacent_index`: Python subscripts into the coordinate list, then adjacency. */
  function IsAdjacentIndex(t: Topology, i: int, j: int): (r: Result<bool>)
    ensures var n := |CoordList(t)|;
      !(-n <= i < n && -n <= j < n) ==> r == Err(IndexError)
    ensures 0 <= i < |CoordList(t)| && 0 <= j < |CoordList(t)| ==>
      r == IsAdjacentCoord(t, CoordList(t)[i], CoordList(t)[j])
    ensures var n := |CoordList(t)|;
      -n <= i < n && -n <= j < n ==>
      r == IsAdjacentCoord(t, CoordList(t)[if i < 0 then i + n else i], CoordList(t)[if j < 0 then j + n else j])
  {
    var cl := CoordList(t);
    match PyIndex(|cl|, i)
    case Err(e) => Err(e)
    case Ok(a) =>
      match PyIndex(|cl|, j)
      case Err(e) => Err(e)
      case Ok(b) => IsAdjacentCoord(t, cl[a], cl[b])
  }

  /** The subclass's `get_coord_neighbors`: a list on the chain; `None` on the
      lattice, which only inherits the base-class stub. */
  function CoordNeighbors(t: Topology, c: Coord): Result<Option<seq<Coord>>>
  {
    match t
    case Chain(s, pbc) =>
      if c.Point? then
        var ns := ChainTopology.CoordNeighbors(s, pbc, c.x);
        Ok(Some(seq(|ns|, k requires 0 <= k < |ns| => Point(ns[k]))))
      else Err(AssertionError)
    case Lattice(_, _) => Ok(None)
  }

  /** The positions of `cs` in the coordinate list, as a loop of `list.index` builds them. */
  function IndicesOf(cl: seq<Coord>, cs: seq<Coord>): (r: Result<seq<nat>>)
    ensures r.Ok? <==> forall k :: 0 <= k < |cs| ==> cs[k] in cl
    ensures r.Err? ==> r.error == ValueError
    ensures r.Ok? ==> |r.value| == |cs|
    ensures r.Ok? ==> forall k :: 0 <= k < |cs| ==> r.value[k] < |cl| && cl[r.value[k]] == cs[k]
  {
    if forall k :: 0 <= k < |cs| ==> cs[k] in cl then
      Ok(seq(|cs|, k requires 0 <= k < |cs| => IndexOf(cl, cs[k]).value))
    else Err(ValueError)
  }

  /** What `get_index_neighbors(index)` (and `get_site_neighbors` for the site
      with that index) returns: iterating `None` raises a TypeError, a
      neighbour outside the coordinate list a ValueError. */
  function NeighborsOf(t: Topology, index: int): (r: Result<seq<nat>>)
    ensures r.Ok? ==> forall k :: 0 <= k < |r.value| ==> r.value[k] < |CoordList(t)|
  {
    var cl := CoordList(t);
    match PyIndex(|cl|, index)
    case Err(e) => Err(e)
    case Ok(a) =>
      match CoordNeighbors(t, cl[a])
      case Err(e) => Err(e)
      case Ok(None) => Err(TypeError)
      case Ok(Some(ns)) => IndicesOf(cl, ns)
  }

  /** What the subclass's `get_adjacent_coord_pairs` returns, its closing
      assertion included. */
  function CoordPairsOf(t: Topology): Result<seq<(Coord, Coord)>>
  {
    match t
    case Chain(s, pbc) =>
      if s >= 1 then
        var ps := ChainTopology.ChainPairs(s, pbc);
        Ok(seq(|ps|, k requires 0 <= k < |ps| => (Point(ps[k].0), Point(ps[k].1))))
      else Err(AssertionError)
    case Lattice(s, pbc) =>
      if s >= 0 then
        var ps := LatticeTopology.LatticePairs(s, pbc);
        Ok(seq(|ps|, k requires 0 <= k < |ps| => (Cell(ps[k].0.0, ps[k].0.1), Cell(ps[k].1.0, ps[k].1.1))))
      else Err(AssertionError)
  }

  /** The index pairs of the coordinate pairs `ps`, as a loop of `list.index` builds them. */
  function PairIndices(cl: seq<Coord>, ps: seq<(Coord, Coord)>): (r: Result<seq<(nat, nat)>>)
    ensures r.Ok? <==> forall k :: 0 <= k < |ps| ==> ps[k].0 in cl && ps[k].1 in cl
    ensures r.Err? ==> r.error == ValueError
    ensures r.Ok? ==> |r.value| == |ps|
    ensures r.Ok? ==> forall k :: 0 <= k < |ps| ==>
      r.value[k].0 < |cl| && cl[r.value[k].0] == ps[k].0 && r.value[k].1 < |cl| && cl[r.value[k].1] == ps[k].1
  {
    if forall k :: 0 <= k < |ps| ==> ps[k].0 in cl && ps[k].1 in cl then
      Ok(seq(|ps|, k requires 0 <= k < |ps| => (IndexOf(cl, ps[k].0).value, IndexOf(cl, ps[k].1).value)))
    else Err(ValueError)
  }

  /** What `get_adjacent_index_pairs` (and `get_adjacent_site_pairs`) returns. */
  function IndexPairsOf(t: Topology): (r: Result<seq<(nat, nat)>>)
    ensures r.Ok? ==> forall k :: 0 <= k < |r.value| ==>
      r.value[k].0 < |CoordList(t)| && r.value[k].1 < |CoordList(t)|
  {
    match CoordPairsOf(t)
    case Err(e) => Err(e)
    case Ok(ps) => PairIndices(CoordList(t), ps)
  }

  /** `get_site_int_energy`: the model is asked for the nearest-neighbour
      energy (`dist = 1`, `factor = 1.0`) exactly when the two sites are
      adjacent, and for `dist = 2`, `factor = 0.0` otherwise. */
  function SiteIntEnergy<C>(m: SpinModel<C>, t: Topology, cfg: seq<C>, i: nat, j: nat): (r: Result<real>)
    requires i < |cfg| && j < |cfg|
    ensures r.Err? <==> IsAdjacentIndex(t, i, j).Err?
    ensures IsAdjacentIndex(t, i, j) == Ok(true) ==> r == Ok(m.pairEnergy(cfg[i], cfg[j], 1, 1.0))
    ensures IsAdjacentIndex(t, i, j) == Ok(false) ==> r == Ok(m.pairEnergy(cfg[i], cfg[j], 2, 0.0))
  {
    match IsAdjacentIndex(t, i, j)
    case Err(e) => Err(e)
    case Ok(adjacent) =>
      var factor := if adjacent then 1.0 else 0.0;
      var dist := if adjacent then 1 else 2;
      Ok(m.pairEnergy(cfg[i], cfg[j], dist, factor))
  }

  /** The field term of a site, zero when `z_field` is `None`. */
  function FieldTerm<C>(m: SpinModel<C>, zField: Option<real>, c: C): real
  {
    if zField.Some? then m.fieldEnergy(c, zField.value) else 0.0
  }

  function NeighborTerms<C>(m: SpinModel<C>, t: Topology, cfg: seq<C>, i: nat, ns: seq<nat>): seq<Result<real>>
    requires i < |cfg| && forall k :: 0 <= k < |ns| ==> ns[k] < |cfg|
  {
    seq(|ns|, k requires 0 <= k < |ns| => SiteIntEnergy(m, t, cfg, i, ns[k]))
  }

  /** What `get_site_energy` returns for the site with index `i`. */
  function SiteEnergyOf<C>(m: SpinModel<C>, t: Topology, zField: Option<real>, cfg: seq<C>, i: nat): Result<real>
    requires i < |cfg| == |CoordList(t)|
  {
    match NeighborsOf(t, i)
    case Err(e) => Err(e)
    case Ok(ns) => SiteEnergyFrom(m, t, zField, cfg, i, ns)
  }

  /** The energy of site `i` once its neighbours `ns` are known: the field
      term, then the loop over the neighbours, which stops at the first error. */
  function SiteEnergyFrom<C>(m: SpinModel<C>, t: Topology, zField: Option<real>, cfg: seq<C>,
                             i: nat, ns: seq<nat>): Result<real>
    requires i < |cfg| && forall k :: 0 <= k < |ns| ==> ns[k] < |cfg|
  {
    match SumResults(NeighborTerms(m, t, cfg, i, ns))
    case Err(e) => Err(e)
    case Ok(s) => Ok(FieldTerm(m, zField, cfg[i]) + s)
  }

  function PairTerms<C>(m: SpinModel<C>, t: Topology, cfg: seq<C>, ps: seq<(nat, nat)>): seq<Result<real>>
    requires forall k :: 0 <= k < |ps| ==> ps[k].0 < |cfg| && ps[k].1 < |cfg|
  {
    seq(|ps|, k requires 0 <= k < |ps| => SiteIntEnergy(m, t, cfg, ps[k].0, ps[k].1))
  }

  /** What `get_system_energy` returns. With a field it reads the local
      `site_energy` before assigning it, which raises UnboundLocalError. */
  function SystemEnergyOf<C>(m: SpinModel<C>, t: Topology, zField: Option<real>, cfg: seq<C>): Result<real>
    requires |cfg| == |CoordList(t)|
  {
    if zField.Some? && |cfg| > 0 then Err(UnboundLocalError)
    else
      match IndexPairsOf(t)
      case Err(e) => Err(e)
      case Ok(ps) => SumResults(PairTerms(m, t, cfg, ps))
  }

  /** Once the pairs are listed, the system energy is the loop over their terms. */
  lemma SystemEnergyPairs<C>(m: SpinModel<C>, t: Topology, zField: Option<real>, cfg: seq<C>, ps: seq<(nat, nat)>)
    requires |cfg| == |CoordList(t)| && IndexPairsOf(t) == Ok(ps)
    requires zField.None? || |cfg| == 0
    ensures forall k :: 0 <= k < |ps| ==> ps[k].0 < |cfg| && ps[k].1 < |cfg|
    ensures SystemEnergyOf(m, t, zField, cfg) == SumResults(PairTerms(m, t, cfg, ps))
  {
  }

  lemma SiteEnergyFromSum<C>(m: SpinModel<C>, t: Topology, zField: Option<real>, cfg: seq<C>, i: nat, ns: seq<nat>)
    requires i < |cfg| && forall k :: 0 <= k < |ns| ==> ns[k] < |cfg|
    ensures var sum := SumResults(NeighborTerms(m, t, cfg, i, ns));
      SiteEnergyFrom(m, t, zField, cfg, i, ns) ==
        if sum.Err? then Err(sum.error) else Ok(FieldTerm(m, zField, cfg[i]) + sum.value)
  {
  }

  /** Once the neighbours are listed, the site energy is the field term plus the loop over their terms. */
  lemma SiteEnergyNeighbors<C>(m: SpinModel<C>, t: Topology, zField: Option<real>, cfg: seq<C>, i: nat, ns: seq<nat>)
    requires i < |cfg| == |CoordList(t)| && NeighborsOf(t, i) == Ok(ns)
    ensures forall k :: 0 <= k < |ns| ==> ns[k] < |cfg|
    ensures SiteEnergyOf(m, t, zField, cfg, i) == SiteEnergyFrom(m, t, zField, cfg, i, ns)
  {
  }

  // ---- reference sums

  /** The nearest-neighbour energies of site `i` against each of `ns`. */
  function NeighborEnergy<C>(m: SpinModel<C>, cfg: seq<C>, i: nat, ns: seq<int>): real
    requires i < |cfg| && forall k :: 0 <= k < |ns| ==> 0 <= ns[k] < |cfg|
  {
    Sum(seq(|ns|, k requires 0 <= k < |ns| => m.pairEnergy(cfg[i], cfg[ns[k]], 1, 1.0)))
  }

  /** The energies of the bonds `ps`, each evaluated with `dist` and `factor`. */
  function BondEnergy<C>(m: SpinModel<C>, cfg: seq<C>, ps: seq<(int, int)>, dist: int, factor: real): real
    requires forall k :: 0 <= k < |ps| ==> 0 <= ps[k].0 < |cfg| && 0 <= ps[k].1 < |cfg|
  {
    Sum(seq(|ps|, k requires 0 <= k < |ps| => m.pairEnergy(cfg[ps[k].0], cfg[ps[k].1], dist, factor)))
  }

  /** The systems on which `get_site_energy`, and hence the sweep, can run. */
  predicate Sweepable(t: Topology)
  {
    t.Chain? && t.shape >= 2
  }

  // ---- the coordinate lists

  lemma ChainIndexOf(s: int, pbc: bool, x: int)
    ensures |CoordList(Chain(s, pbc))| == Nat(s)
    ensures IndexOf(CoordList(Chain(s, pbc)), Point(x)) == if 0 <= x < s then Ok(x) else Err(ValueError)
  {
    var cl := CoordList(Chain(s, pbc));
    if 0 <= x < s {
      IndexOfFirst(cl, Point(x), x);
    } else {
      assert Point(x) !in cl;
    }
  }

  /** On the lattice, `_coord_list.index` finds every grid coordinate. */
  lemma LatticeCoordIn(s: int, pbc: bool, a: int, b: int)
    requires s >= 1 && 0 <= a < s && 0 <= b < s
    ensures |CoordList(Lattice(s, pbc))| == s * s
    ensures Cell(a, b) in CoordList(Lattice(s, pbc))
  {
    var cs := LatticeTopology.CoordList(s);
    LatticeTopology.CoordListIndex(s, (a, b));
    var q := IndexOf(cs, (a, b)).value;
    assert CoordList(Lattice(s, pbc))[q] == Cell(a, b);
  }

  /** A system with at least one row has as many coordinates as sites; any
      other has no coordinates at all, whatever its number of sites. */
  lemma CoordListSize(t: Topology)
    ensures |CoordList(t)| == if t.shape >= 1 then Size(t) else 0
  {
    if t.Lattice? && t.shape >= 1 {
      LatticeTopology.CoordListIndex(t.shape, (0, 0));
    }
  }

  // ---- neighbours and site energies

  /** On a chain of two or more sites, `get_index_neighbors(i)` is the list of
      neighbour coordinates, since coordinate and index coincide. */
  lemma ChainNeighbors(s: int, pbc: bool, i: int)
    requires s >= 2 && 0 <= i < s
    ensures NeighborsOf(Chain(s, pbc), i) == Ok(ChainTopology.CoordNeighbors(s, pbc, i))
  {
    var t := Chain(s, pbc);
    var cl := CoordList(t);
    var ns := ChainTopology.CoordNeighbors(s, pbc, i);
    var ps := seq(|ns|, k requires 0 <= k < |ns| => Point(ns[k]));
    ChainIndexOf(s, pbc, i);
    assert cl[i] == Point(i);
    assert CoordNeighbors(t, cl[i]) == Ok(Some(ps));
    forall k | 0 <= k < |ns|
      ensures ps[k] in cl && IndexOf(cl, ps[k]) == Ok(ns[k])
    {
      ChainTopology.NeighborsAdjacent(s, pbc, i, k);
      ChainIndexOf(s, pbc, ns[k]);
    }
    var r := IndicesOf(cl, ps);
    assert r.Ok?;
    assert r.value == ns;
  }

  /** A chain of one site lists coordinate 1 as a neighbour, which is not in
      the coordinate list. */
  lemma SingleSiteNeighbors(pbc: bool)
    ensures NeighborsOf(Chain(1, pbc), 0) == Err(ValueError)
  {
    var t := Chain(1, pbc);
    var cl := CoordList(t);
    ChainIndexOf(1, pbc, 0);
    ChainIndexOf(1, pbc, 1);
    assert cl[0] == Point(0);
    var ns := ChainTopology.CoordNeighbors(1, pbc, 0);
    var ps := seq(|ns|, k requires 0 <= k < |ns| => Point(ns[k]));
    assert ps[|ps| - 1] == Point(1) && Point(1) !in cl;
  }

  /** On the lattice `get_coord_neighbors` is the stub returning `None`. */
  lemma LatticeNeighbors(s: int, pbc: bool, i: int)
    requires s >= 1 && 0 <= i < s * s
    ensures NeighborsOf(Lattice(s, pbc), i) == Err(TypeError)
  {
    LatticeTopology.CoordListIndex(s, (0, 0));
  }

  /** On the chain index and coordinate coincide, so `is_adjacent_index` is `is_adjacent_coord`. */
  lemma ChainIsAdjacentIndex(s: int, pbc: bool, i: int, j: int)
    requires 0 <= i < s && 0 <= j < s
    ensures IsAdjacentIndex(Chain(s, pbc), i, j) == ChainTopology.IsAdjacentCoord(s, pbc, i, j)
  {
    ChainIndexOf(s, pbc, 0);
    assert CoordList(Chain(s, pbc))[i] == Point(i) && CoordList(Chain(s, pbc))[j] == Point(j);
  }

  /** The term of the `k`-th neighbour of site `i` is the nearest-neighbour energy. */
  lemma ChainNeighborTerm<C>(m: SpinModel<C>, s: int, pbc: bool, cfg: seq<C>, i: nat, k: nat)
    requires s >= 2 && |cfg| == s && i < s && k < |ChainTopology.CoordNeighbors(s, pbc, i)|
    ensures 0 <= ChainTopology.CoordNeighbors(s, pbc, i)[k] < s
    ensures var j := ChainTopology.CoordNeighbors(s, pbc, i)[k];
      SiteIntEnergy(m, Chain(s, pbc), cfg, i, j) == Ok(m.pairEnergy(cfg[i], cfg[j], 1, 1.0))
  {
    ChainTopology.NeighborsAdjacent(s, pbc, i, k);
    ChainIsAdjacentIndex(s, pbc, i, ChainTopology.CoordNeighbors(s, pbc, i)[k]);
  }

  /** The energy of site `i` of a chain of two or more sites in closed form:
      its field term plus its bond to each listed neighbour. */
  function ChainLocalEnergy<C>(m: SpinModel<C>, s: int, pbc: bool, zField: Option<real>, cfg: seq<C>, i: nat): real
    requires s >= 2 && |cfg| == s && i < s
  {
    ChainTopology.NeighborsInChain(s, pbc, i);
    FieldTerm(m, zField, cfg[i]) + NeighborEnergy(m, cfg, i, ChainTopology.CoordNeighbors(s, pbc, i))
  }

  /** On a chain of two or more sites the energy of site `i` is its field term
      plus the nearest-neighbour energy against each listed neighbour. */
  lemma ChainSiteEnergy<C>(m: SpinModel<C>, s: int, pbc: bool, zField: Option<real>, cfg: seq<C>, i: nat)
    requires s >= 2 && |cfg| == s && i < s
    ensures forall k :: 0 <= k < |ChainTopology.CoordNeighbors(s, pbc, i)| ==>
      0 <= ChainTopology.CoordNeighbors(s, pbc, i)[k] < s
    ensures SiteEnergyOf(m, Chain(s, pbc), zField, cfg, i) == Ok(ChainLocalEnergy(m, s, pbc, zField, cfg, i))
  {
    var t := Chain(s, pbc);
    var ns := ChainTopology.CoordNeighbors(s, pbc, i);
    forall k | 0 <= k < |ns|
      ensures 0 <= ns[k] < s
    {
      ChainTopology.NeighborsAdjacent(s, pbc, i, k);
    }
    ChainNeighbors(s, pbc, i);
    ChainIndexOf(s, pbc, 0);
    SiteEnergyNeighbors(m, t, zField, cfg, i, ns);
    var terms := NeighborTerms(m, t, cfg, i, ns);
    var values := seq(|ns|, k requires 0 <= k < |ns| => m.pairEnergy(cfg[i], cfg[ns[k]], 1, 1.0));
    forall k | 0 <= k < |ns|
      ensures terms[k] == Ok(values[k])
    {
      ChainNeighborTerm(m, s, pbc, cfg, i, k);
    }
    SumResultsAllOk(terms, values);
  }

  /** `get_site_energy` runs exactly on chains of two or more sites: on a
      one-site chain it raises ValueError, on the lattice TypeError, whatever
      the configurations. */
  lemma SiteEnergyDefined<C>(m: SpinModel<C>, t: Topology, zField: Option<real>, cfg: seq<C>, i: nat)
    requires t.shape >= 1 && i < |cfg| == |CoordList(t)|
    ensures SiteEnergyOf(m, t, zField, cfg, i).Ok? <==> Sweepable(t)
    ensures !Sweepable(t) ==>
      SiteEnergyOf(m, t, zField, cfg, i) == Err(if t.Lattice? then TypeError else ValueError)
  {
    CoordListSize(t);
    if Sweepable(t) {
      ChainSiteEnergy(m, t.shape, t.pbc, zField, cfg, i);
    } else if t.Chain? {
      SingleSiteNeighbors(t.pbc);
    } else {
      LatticeNeighbors(t.shape, t.pbc, i);
    }
  }

  // ---- system energies

  /** On a chain of two or more sites the index pairs are the coordinate pairs. */
  lemma ChainIndexPairs(s: int, pbc: bool)
    requires s >= 2
    ensures |CoordList(Chain(s, pbc))| == s
    ensures IndexPairsOf(Chain(s, pbc)) == Ok(ChainTopology.ChainPairs(s, pbc))
  {
    var t := Chain(s, pbc);
    var cl := CoordList(t);
    var ps := ChainTopology.ChainPairs(s, pbc);
    var cps := seq(|ps|, k requires 0 <= k < |ps| => (Point(ps[k].0), Point(ps[k].1)));
    assert CoordPairsOf(t) == Ok(cps);
    forall k | 0 <= k < |ps|
      ensures IndexOf(cl, cps[k].0) == Ok(ps[k].0) && IndexOf(cl, cps[k].1) == Ok(ps[k].1)
    {
      ChainTopology.ChainPairsAdjacent(s, pbc, k);
      ChainIndexOf(s, pbc, ps[k].0);
      ChainIndexOf(s, pbc, ps[k].1);
    }
    ChainIndexOf(s, pbc, 0);
    var ips := IndexPairsOf(t);
    assert ips.Ok?;
    assert ips.value == ps;
  }

  /** The term of the `k`-th listed edge is the nearest-neighbour energy. */
  lemma ChainPairTerm<C>(m: SpinModel<C>, s: int, pbc: bool, cfg: seq<C>, k: nat)
    requires s >= 2 && |cfg| == s && k < |ChainTopology.ChainPairs(s, pbc)|
    ensures var p := ChainTopology.ChainPairs(s, pbc)[k]; 0 <= p.0 < s && 0 <= p.1 < s
    ensures var p := ChainTopology.ChainPairs(s, pbc)[k];
      SiteIntEnergy(m, Chain(s, pbc), cfg, p.0, p.1) == Ok(m.pairEnergy(cfg[p.0], cfg[p.1], 1, 1.0))
  {
    ChainTopology.ChainPairsAdjacent(s, pbc, k);
    var p := ChainTopology.ChainPairs(s, pbc)[k];
    ChainIsAdjacentIndex(s, pbc, p.0, p.1);
  }

  /** Without a field, the energy of a chain of two or more sites is the
      nearest-neighbour energy summed once over each listed edge. */
  lemma ChainSystemEnergy<C>(m: SpinModel<C>, s: int, pbc: bool, cfg: seq<C>)
    requires s >= 2 && |cfg| == s
    ensures forall k :: 0 <= k < |ChainTopology.ChainPairs(s, pbc)| ==>
      0 <= ChainTopology.ChainPairs(s, pbc)[k].0 < s && 0 <= ChainTopology.ChainPairs(s, pbc)[k].1 < s
    ensures SystemEnergyOf(m, Chain(s, pbc), None, cfg) ==
      Ok(BondEnergy(m, cfg, ChainTopology.ChainPairs(s, pbc), 1, 1.0))
  {
    var t := Chain(s, pbc);
    var ps := ChainTopology.ChainPairs(s, pbc);
    forall k | 0 <= k < |ps|
      ensures 0 <= ps[k].0 < s && 0 <= ps[k].1 < s
    {
      ChainTopology.ChainPairsAdjacent(s, pbc, k);
    }
    ChainIndexPairs(s, pbc);
    var ips := IndexPairsOf(t).value;
    SystemEnergyPairs(m, t, None, cfg, ips);
    var terms := PairTerms(m, t, cfg, ips);
    var values := seq(|ps|, k requires 0 <= k < |ps| => m.pairEnergy(cfg[ps[k].0], cfg[ps[k].1], 1, 1.0));
    forall k | 0 <= k < |ps|
      ensures terms[k] == Ok(values[k])
    {
      ChainPairTerm(m, s, pbc, cfg, k);
    }
    SumResultsAllOk(terms, values);
  }

  /** When every site holds `c`, each bond contributes the same energy. */
  lemma UniformBondEnergy<C>(m: SpinModel<C>, cfg: seq<C>, ps: seq<(int, int)>, dist: int, factor: real, c: C)
    requires forall k :: 0 <= k < |ps| ==> 0 <= ps[k].0 < |cfg| && 0 <= ps[k].1 < |cfg|
    requires forall k :: 0 <= k < |cfg| ==> cfg[k] == c
    ensures BondEnergy(m, cfg, ps, dist, factor) == |ps| as real * m.pairEnergy(c, c, dist, factor)
  {
    SumConstant(seq(|ps|, k requires 0 <= k < |ps| => m.pairEnergy(cfg[ps[k].0], cfg[ps[k].1], dist, factor)),
                m.pairEnergy(c, c, dist, factor));
  }

  lemma UniformChainBonds<C>(m: SpinModel<C>, s: int, pbc: bool, cfg: seq<C>, c: C)
    requires s >= 2 && |cfg| == s
    requires forall k :: 0 <= k < s ==> cfg[k] == c
    ensures forall k :: 0 <= k < |ChainTopology.ChainPairs(s, pbc)| ==>
      0 <= ChainTopology.ChainPairs(s, pbc)[k].0 < s && 0 <= ChainTopology.ChainPairs(s, pbc)[k].1 < s
    ensures BondEnergy(m, cfg, ChainTopology.ChainPairs(s, pbc), 1, 1.0) ==
      (if pbc then s else s - 1) as real * m.pairEnergy(c, c, 1, 1.0)
  {
    var ps := ChainTopology.ChainPairs(s, pbc);
    forall k | 0 <= k < |ps|
      ensures 0 <= ps[k].0 < s && 0 <= ps[k].1 < s
    {
      ChainTopology.ChainPairsAdjacent(s, pbc, k);
    }
    ChainTopology.ChainPairsCount(s, pbc);
    UniformBondEnergy(m, cfg, ps, 1, 1.0, c);
  }

  /** A chain whose sites all hold the same configuration `c` has energy
      (number of edges) times the nearest-neighbour energy of `c` with itself:
      for the periodic chain of four aligned spins, four bonds. */
  lemma UniformChainEnergy<C>(m: SpinModel<C>, s: int, pbc: bool, cfg: seq<C>, c: C)
    requires s >= 2 && |cfg| == s
    requires forall k :: 0 <= k < s ==> cfg[k] == c
    ensures SystemEnergyOf(m, Chain(s, pbc), None, cfg) ==
      Ok((if pbc then s else s - 1) as real * m.pairEnergy(c, c, 1, 1.0))
  {
    UniformChainBonds(m, s, pbc, cfg, c);
    ChainSystemEnergy(m, s, pbc, cfg);
  }

  /** Every pair the lattice lists is made of two grid coordinates, so its
      index pair exists and points back at those coordinates. */
  lemma LatticeIndexPairs(s: int, pbc: bool)
    requires s >= 1
    ensures |CoordList(Lattice(s, pbc))| == s * s
    ensures IndexPairsOf(Lattice(s, pbc)).Ok?
    ensures |IndexPairsOf(Lattice(s, pbc)).value| == |LatticeTopology.LatticePairs(s, pbc)|
    ensures forall k :: 0 <= k < |IndexPairsOf(Lattice(s, pbc)).value| ==>
      var p := LatticeTopology.LatticePairs(s, pbc)[k];
      var ip := IndexPairsOf(Lattice(s, pbc)).value[k];
      CoordList(Lattice(s, pbc))[ip.0] == Cell(p.0.0, p.0.1) &&
      CoordList(Lattice(s, pbc))[ip.1] == Cell(p.1.0, p.1.1)
  {
    var t := Lattice(s, pbc);
    var cl := CoordList(t);
    var ps := LatticeTopology.LatticePairs(s, pbc);
    var cps := seq(|ps|, k requires 0 <= k < |ps| => (Cell(ps[k].0.0, ps[k].0.1), Cell(ps[k].1.0, ps[k].1.1)));
    LatticeCoordIn(s, pbc, 0, 0);
    assert CoordPairsOf(t) == Ok(cps);
    forall k | 0 <= k < |ps|
      ensures cps[k].0 in cl && cps[k].1 in cl
    {
      assert ps[k] in ps;
      LatticeTopology.LatticePairsInGrid(s, pbc, ps[k]);
      LatticeCoordIn(s, pbc, ps[k].0.0, ps[k].0.1);
      LatticeCoordIn(s, pbc, ps[k].1.0, ps[k].1.1);
    }
  }

  /** The term of the `k`-th listed pair: adjacency as written never holds, so
      it is the `dist = 2`, `factor = 0.0` energy, or the assertion failure
      of a coordinate paired with itself. */
  lemma LatticeTerm<C>(m: SpinModel<C>, s: int, pbc: bool, cfg: seq<C>, k: nat)
    requires s >= 1 && |cfg| == s * s && k < |LatticeTopology.LatticePairs(s, pbc)|
    ensures |CoordList(Lattice(s, pbc))| == s * s
    ensures IndexPairsOf(Lattice(s, pbc)).Ok? && k < |IndexPairsOf(Lattice(s, pbc)).value|
    ensures var p := LatticeTopology.LatticePairs(s, pbc)[k];
      var ips := IndexPairsOf(Lattice(s, pbc)).value;
      (p.0 == p.1 ==> PairTerms(m, Lattice(s, pbc), cfg, ips)[k] == Err(AssertionError)) &&
      (p.0 != p.1 ==> PairTerms(m, Lattice(s, pbc), cfg, ips)[k] ==
                        Ok(m.pairEnergy(cfg[ips[k].0], cfg[ips[k].1], 2, 0.0)))
  {
    LatticeIndexPairs(s, pbc);
    var ps := LatticeTopology.LatticePairs(s, pbc);
    assert ps[k] in ps;
    LatticeTopology.LatticePairsNeverAdjacent(s, pbc, ps[k]);
  }

  /** With open boundaries and no field, the lattice energy adds up every
      listed bond, and, adjacency asking for a diagonal step, every one of
      them with `dist = 2` and `factor = 0.0`. */
  lemma OpenLatticeSystemEnergy<C>(m: SpinModel<C>, s: int, cfg: seq<C>)
    requires s >= 1 && |cfg| == s * s
    ensures |CoordList(Lattice(s, false))| == s * s
    ensures IndexPairsOf(Lattice(s, false)).Ok?
    ensures SystemEnergyOf(m, Lattice(s, false), None, cfg) ==
      Ok(BondEnergy(m, cfg, IndexPairsOf(Lattice(s, false)).value, 2, 0.0))
  {
    LatticeIndexPairs(s, false);
    var t := Lattice(s, false);
    var ips := IndexPairsOf(t).value;
    var ps := LatticeTopology.LatticePairs(s, false);
    var terms := PairTerms(m, t, cfg, ips);
    var values := seq(|ips|, k requires 0 <= k < |ips| => m.pairEnergy(cfg[ips[k].0], cfg[ips[k].1], 2, 0.0));
    forall k | 0 <= k < |ips|
      ensures terms[k] == Ok(values[k])
    {
      assert ps[k] in ps;
      LatticeTopology.OpenPairsAreGridSteps(s, ps[k]);
      LatticeTerm(m, s, false, cfg, k);
    }
    SystemEnergyPairs(m, t, None, cfg, ips);
    SumResultsAllOk(terms, values);
  }

  /** With periodic boundaries the lattice lists the corner paired with
      itself, so `get_system_energy` fails the adjacency assertion. */
  lemma PeriodicLatticeSystemEnergy<C>(m: SpinModel<C>, s: int, cfg: seq<C>)
    requires s >= 1 && |cfg| == s * s
    ensures |CoordList(Lattice(s, true))| == s * s
    ensures SystemEnergyOf(m, Lattice(s, true), None, cfg) == Err(AssertionError)
  {
    LatticeIndexPairs(s, true);
    var t := Lattice(s, true);
    var ips := IndexPairsOf(t).value;
    var terms := PairTerms(m, t, cfg, ips);
    forall k | 0 <= k < |terms| && terms[k].Err?
      ensures terms[k].error == AssertionError
    {
      LatticeTerm(m, s, true, cfg, k);
    }
    LatticeTopology.PeriodicPairsWrapFirst(s, 0);
    LatticeTerm(m, s, true, cfg, 2 * s - 1);
    SystemEnergyPairs(m, t, None, cfg, ips);
    SumResultsOnlyError(terms, AssertionError, 2 * s - 1);
  }

  /** With a field, `get_system_energy` never gets past its first site. */
  lemma FieldSystemEnergy<C>(m: SpinModel<C>, t: Topology, f: real, cfg: seq<C>)
    requires |cfg| == |CoordList(t)| && |cfg| > 0
    ensures SystemEnergyOf(m, t, Some(f), cfg) == Err(UnboundLocalError)
  {
  }
}
