/** The 1-D draft of the engine, `OneDimensionalSpinChain` in the older
    `spin_model` package.

    Unlike the engine, the draft keeps a list of `IsingSpinSite` objects and
    updates their configurations in place; a site in the list at position
    `k` carries index `k`. Sites are named here by their position in that
    list, and their configurations are read through `Configs()`. The pair
    energy `get_config_int_energy` of the spin model is not defined by any
    model class shown, so it is the parameter `pairEnergy`. */
module DraftSystem {
  import opened Outcomes
  import opened Sums
  import ChainTopology
  import MonteCarloSystem
  import opened SpinSites
  import opened SpinModels

  /** `get_config_int_energy(config1, config2, dist, factor)` of the spin model. */
  type PairEnergy = (int, int, int, real) -> real

  /** `is_adjacent_index`: both indices are Python subscripts into
      `_coord_list == list(range(size))`, then `is_adjacent_coord` decides. */
  function AdjacentIndex(size: nat, pbc: bool, index1: int, index2: int): (r: Result<bool>)
    ensures !(-(size as int) <= index1 < size && -(size as int) <= index2 < size) ==> r == Err(IndexError)
    ensures 0 <= index1 < size && 0 <= index2 < size ==>
      r == ChainTopology.IsAdjacentCoord(size, pbc, index1, index2)
    ensures -(size as int) <= index1 < size && -(size as int) <= index2 < size ==>
      r == ChainTopology.IsAdjacentCoord(size, pbc, if index1 < 0 then index1 + size else index1,
                                         if index2 < 0 then index2 + size else index2)
  {
    match PyIndex(size, index1)
    case Err(e) => Err(e)
    case Ok(c1) =>
      match PyIndex(size, index2)
      case Err(e) => Err(e)
      case Ok(c2) => ChainTopology.IsAdjacentCoord(size, pbc, c1, c2)
  }

  /** The two-site list `[site_list[a], site_list[b]]`, as positions. */
  function Lookup(size: nat, a: int, b: int): (r: Result<Option<seq<nat>>>)
    ensures r.Ok? <==> -(size as int) <= a < size && -(size as int) <= b < size
    ensures r.Err? ==> r.error == IndexError
    ensures r.Ok? ==> r.value.Some? && |r.value.value| == 2
    ensures r.Ok? ==> r.value.value[0] < size && r.value.value[1] < size
  {
    match PyIndex(size, a)
    case Err(e) => Err(e)
    case Ok(x) =>
      match PyIndex(size, b)
      case Err(e) => Err(e)
      case Ok(y) => Ok(Some([x, y]))
  }

  /** `get_site_neighbors` of a site with index `index`: with periodic
      boundaries only the two end sites get a list and every other site
      falls through to `None`; with open boundaries the sites `index - 1` and
      `index + 1` are looked up with Python subscripts. */
  function Neighbors(size: nat, pbc: bool, index: int): (r: Result<Option<seq<nat>>>)
    ensures r.Ok? && r.value.Some? ==> forall k :: 0 <= k < |r.value.value| ==> r.value.value[k] < size
  {
    if pbc then
      if index == 0 then Lookup(size, 1, size - 1)
      else if index == size - 1 then Lookup(size, 0, size - 2)
      else Ok(None)
    else Lookup(size, index - 1, index + 1)
  }

  /** `get_int_energy` of a site with index `index1` and configuration
      `config1` and one with `index2` and `config2`: adjacency decides
      `dist` and `factor` (its failure comes first), then reading a missing
      configuration raises AttributeError. */
  function IntEnergy(pe: PairEnergy, size: nat, pbc: bool, index1: int, config1: Option<int>,
                     index2: int, config2: Option<int>): (r: Result<real>)
    ensures AdjacentIndex(size, pbc, index1, index2).Err? ==> r == Err(AdjacentIndex(size, pbc, index1, index2).error)
    ensures AdjacentIndex(size, pbc, index1, index2).Ok? && (config1.None? || config2.None?) ==> r == Err(AttributeError)
    ensures AdjacentIndex(size, pbc, index1, index2) == Ok(true) && config1.Some? && config2.Some? ==>
      r == Ok(pe(config1.value, config2.value, 1, 1.0))
    ensures AdjacentIndex(size, pbc, index1, index2) == Ok(false) && config1.Some? && config2.Some? ==>
      r == Ok(pe(config1.value, config2.value, 2, 0.0))
  {
    match AdjacentIndex(size, pbc, index1, index2)
    case Err(e) => Err(e)
    case Ok(adjacent) =>
      if config1.None? || config2.None? then Err(AttributeError)
      else
        var factor := if adjacent then 1.0 else 0.0;
        var dist := if adjacent then 1 else 2;
        Ok(pe(config1.value, config2.value, dist, factor))
  }

  /** The terms of `get_site_energy` over the neighbours `ns`. */
  function SiteTerms(pe: PairEnergy, pbc: bool, cfgs: seq<Option<int>>, index: int, config: Option<int>,
                     ns: seq<nat>): seq<Result<real>>
    requires forall k :: 0 <= k < |ns| ==> ns[k] < |cfgs|
  {
    seq(|ns|, k requires 0 <= k < |ns| => IntEnergy(pe, |cfgs|, pbc, index, config, ns[k], cfgs[ns[k]]))
  }

  /** What `get_site_energy` returns for a site with index `index` and
      configuration `config`, the list holding `cfgs`: iterating a `None`
      neighbour list raises TypeError; the sum stops at the first error. */
  function SiteEnergyOf(pe: PairEnergy, pbc: bool, cfgs: seq<Option<int>>, index: int, config: Option<int>): Result<real>
  {
    match Neighbors(|cfgs|, pbc, index)
    case Err(e) => Err(e)
    case Ok(None) => Err(TypeError)
    case Ok(Some(ns)) => SumResults(SiteTerms(pe, pbc, cfgs, index, config, ns))
  }

  /** The terms of `get_system_energy`, one per pair of `get_adjacent_pairs`. */
  function PairTerms(pe: PairEnergy, pbc: bool, cfgs: seq<Option<int>>): seq<Result<real>>
    requires |cfgs| >= 1
  {
    var ps := ChainTopology.ChainPairs(|cfgs|, pbc);
    ChainTopology.ChainPairsInChain(|cfgs|, pbc);
    seq(|ps|, k requires 0 <= k < |ps| =>
      IntEnergy(pe, |cfgs|, pbc, ps[k].0, cfgs[ps[k].0], ps[k].1, cfgs[ps[k].1]))
  }

  /** What `get_system_energy` returns; the sum stops at the first error. */
  function SystemEnergyOf(pe: PairEnergy, pbc: bool, cfgs: seq<Option<int>>): Result<real>
    requires |cfgs| >= 1
  {
    SumResults(PairTerms(pe, pbc, cfgs))
  }

  predicate AllSet(cfgs: seq<Option<int>>)
  {
    forall k :: 0 <= k < |cfgs| ==> cfgs[k].Some?
  }

  /** The nearest-neighbour energy summed once over each edge of the chain. */
  function BondEnergy(pe: PairEnergy, pbc: bool, cfgs: seq<Option<int>>): real
    requires |cfgs| >= 1 && AllSet(cfgs)
  {
    var ps := ChainTopology.ChainPairs(|cfgs|, pbc);
    ChainTopology.ChainPairsInChain(|cfgs|, pbc);
    Sum(seq(|ps|, k requires 0 <= k < |ps| => pe(cfgs[ps[k].0].value, cfgs[ps[k].1].value, 1, 1.0)))
  }

  // ---- the neighbour lists

  /** With periodic boundaries the first site sees sites `1` and `size - 1`,
      the last sees `0` and `size - 2`, and every other site gets `None`. */
  lemma PeriodicNeighbors(size: nat, index: int)
    requires size >= 2
    ensures index == 0 ==> Neighbors(size, true, index) == Ok(Some([1, size - 1]))
    ensures index == size - 1 ==> Neighbors(size, true, index) == Ok(Some([0, size - 2]))
    ensures index != 0 && index != size - 1 ==> Neighbors(size, true, index) == Ok(None)
  {
  }

  /** With open boundaries an inner site sees `index - 1` and `index + 1`,
      the first site sees `size - 1` (subscript `-1` wraps round) and `1`,
      and the last site reaches past the list. */
  lemma OpenNeighbors(size: nat, index: int)
    requires size >= 2
    ensures index == 0 ==> Neighbors(size, false, index) == Ok(Some([size - 1, 1]))
    ensures 0 < index < size - 1 ==> Neighbors(size, false, index) == Ok(Some([index - 1, index + 1]))
    ensures index == size - 1 ==> Neighbors(size, false, index) == Err(IndexError)
  {
  }

  /** Where the draft's lists agree with the engine's `get_coord_neighbors`:
      inner sites of an open chain, and the end sites of a periodic chain up
      to order. */
  lemma NeighborsAgainstEngine(size: nat, pbc: bool, index: nat)
    requires size >= 3 && index < size
    ensures !pbc && 0 < index < size - 1 ==>
      Neighbors(size, pbc, index).Ok? && Neighbors(size, pbc, index).value.Some? &&
      Neighbors(size, pbc, index).value.value == ChainTopology.CoordNeighbors(size, pbc, index)
    ensures pbc && (index == 0 || index == size - 1) ==>
      Neighbors(size, pbc, index).Ok? && Neighbors(size, pbc, index).value.Some? &&
      var ns := Neighbors(size, pbc, index).value.value;
      var cs := ChainTopology.CoordNeighbors(size, pbc, index);
      |ns| == |cs| == 2 && ns[0] == cs[1] && ns[1] == cs[0]
    ensures pbc && 0 < index < size - 1 ==> Neighbors(size, pbc, index) == Ok(None)
  {
    if pbc {
      PeriodicNeighbors(size, index);
    } else {
      OpenNeighbors(size, index);
    }
  }

  // ---- the energies

  /** The term of the `k`-th pair: the nearest-neighbour energy when both
      configurations are set, an AttributeError otherwise. */
  lemma PairTerm(pe: PairEnergy, pbc: bool, cfgs: seq<Option<int>>, k: nat)
    requires |cfgs| >= 2 && k < |ChainTopology.ChainPairs(|cfgs|, pbc)|
    ensures var p := ChainTopology.ChainPairs(|cfgs|, pbc)[k];
      0 <= p.0 < |cfgs| && 0 <= p.1 < |cfgs| &&
      PairTerms(pe, pbc, cfgs)[k] ==
        if cfgs[p.0].Some? && cfgs[p.1].Some? then Ok(pe(cfgs[p.0].value, cfgs[p.1].value, 1, 1.0))
        else Err(AttributeError)
  {
    ChainTopology.ChainPairsAdjacent(|cfgs|, pbc, k);
  }

  /** Some pair of the chain has site `s` as an end. */
  lemma SiteOnPair(size: int, pbc: bool, s: nat) returns (k: nat)
    requires size >= 2 && s < size
    ensures k < |ChainTopology.ChainPairs(size, pbc)|
    ensures ChainTopology.ChainPairs(size, pbc)[k].0 == s || ChainTopology.ChainPairs(size, pbc)[k].1 == s
  {
    ChainTopology.ChainPairsCount(size, pbc);
    k := if pbc || s < size - 1 then s else s - 1;
    ChainTopology.ChainPairsAt(size, pbc, k);
  }

  /** On a chain of two or more sites `get_system_energy` returns exactly
      when every site has a configuration, and then it is the
      nearest-neighbour energy summed once over each edge; otherwise it
      raises AttributeError. */
  lemma SystemEnergyDefined(pe: PairEnergy, pbc: bool, cfgs: seq<Option<int>>)
    requires |cfgs| >= 2
    ensures SystemEnergyOf(pe, pbc, cfgs).Ok? <==> AllSet(cfgs)
    ensures SystemEnergyOf(pe, pbc, cfgs).Err? ==> SystemEnergyOf(pe, pbc, cfgs).error == AttributeError
    ensures AllSet(cfgs) ==> SystemEnergyOf(pe, pbc, cfgs) == Ok(BondEnergy(pe, pbc, cfgs))
  {
    var terms := PairTerms(pe, pbc, cfgs);
    var ps := ChainTopology.ChainPairs(|cfgs|, pbc);
    forall k | 0 <= k < |terms| && terms[k].Err?
      ensures terms[k].error == AttributeError
    {
      PairTerm(pe, pbc, cfgs, k);
    }
    if AllSet(cfgs) {
      ChainTopology.ChainPairsInChain(|cfgs|, pbc);
      var values := seq(|ps|, k requires 0 <= k < |ps| => pe(cfgs[ps[k].0].value, cfgs[ps[k].1].value, 1, 1.0));
      forall k | 0 <= k < |terms|
        ensures terms[k] == Ok(values[k])
      {
        PairTerm(pe, pbc, cfgs, k);
      }
      SumResultsAllOk(terms, values);
    } else {
      var s :| 0 <= s < |cfgs| && cfgs[s].None?;
      var k := SiteOnPair(|cfgs|, pbc, s);
      PairTerm(pe, pbc, cfgs, k);
      SumResultsOnlyError(terms, AttributeError, k);
    }
  }

  /** A site seen next to two neighbours with configurations: the sum of its two terms. */
  lemma TwoNeighborEnergy(pe: PairEnergy, pbc: bool, cfgs: seq<Option<int>>, index: int, config: Option<int>,
                          a: nat, b: nat)
    requires a < |cfgs| && b < |cfgs|
    requires Neighbors(|cfgs|, pbc, index) == Ok(Some([a, b]))
    ensures SiteEnergyOf(pe, pbc, cfgs, index, config) ==
      SumResults([IntEnergy(pe, |cfgs|, pbc, index, config, a, cfgs[a]),
                  IntEnergy(pe, |cfgs|, pbc, index, config, b, cfgs[b])])
  {
    assert SiteTerms(pe, pbc, cfgs, index, config, [a, b]) ==
      [IntEnergy(pe, |cfgs|, pbc, index, config, a, cfgs[a]),
       IntEnergy(pe, |cfgs|, pbc, index, config, b, cfgs[b])];
  }

  /** `SumResults` of two terms that both return. */
  lemma SumOfTwo(x: real, y: real)
    ensures SumResults([Ok(x), Ok(y)]) == Ok(x + y)
  {
    var xs := [Ok(x), Ok(y)];
    assert xs[..0] == [];
    SumResultsStep(xs, 0, 0.0, x);
    SumResultsStep(xs, 1, x, y);
    assert xs[..2] == xs;
  }

  /** With periodic boundaries every site but the two ends raises TypeError;
      the two ends, once every configuration is set, sum the
      nearest-neighbour energy against their two neighbours. */
  lemma PeriodicSiteEnergy(pe: PairEnergy, cfgs: seq<Option<int>>, index: int, c: int)
    requires |cfgs| >= 3 && AllSet(cfgs)
    ensures index != 0 && index != |cfgs| - 1 ==> SiteEnergyOf(pe, true, cfgs, index, Some(c)) == Err(TypeError)
    ensures index == 0 ==>
      SiteEnergyOf(pe, true, cfgs, index, Some(c)) ==
      Ok(pe(c, cfgs[1].value, 1, 1.0) + pe(c, cfgs[|cfgs| - 1].value, 1, 1.0))
    ensures index == |cfgs| - 1 ==>
      SiteEnergyOf(pe, true, cfgs, index, Some(c)) ==
      Ok(pe(c, cfgs[0].value, 1, 1.0) + pe(c, cfgs[|cfgs| - 2].value, 1, 1.0))
  {
    var n := |cfgs|;
    PeriodicNeighbors(n, index);
    if index == 0 {
      TwoNeighborEnergy(pe, true, cfgs, index, Some(c), 1, n - 1);
      SumOfTwo(pe(c, cfgs[1].value, 1, 1.0), pe(c, cfgs[n - 1].value, 1, 1.0));
    } else if index == n - 1 {
      TwoNeighborEnergy(pe, true, cfgs, index, Some(c), 0, n - 2);
      SumOfTwo(pe(c, cfgs[0].value, 1, 1.0), pe(c, cfgs[n - 2].value, 1, 1.0));
    }
  }

  /** With open boundaries the last site raises IndexError; the first site
      is charged against the last one as a non-neighbour (`dist = 2`,
      `factor = 0.0`) because subscript `-1` wraps round, and an inner site,
      once every configuration is set, sums the nearest-neighbour energy
      against its two neighbours. */
  lemma OpenSiteEnergy(pe: PairEnergy, cfgs: seq<Option<int>>, index: int, c: int)
    requires |cfgs| >= 3 && AllSet(cfgs)
    ensures index == |cfgs| - 1 ==> SiteEnergyOf(pe, false, cfgs, index, Some(c)) == Err(IndexError)
    ensures index == 0 ==>
      SiteEnergyOf(pe, false, cfgs, index, Some(c)) ==
      Ok(pe(c, cfgs[|cfgs| - 1].value, 2, 0.0) + pe(c, cfgs[1].value, 1, 1.0))
    ensures 0 < index < |cfgs| - 1 ==>
      SiteEnergyOf(pe, false, cfgs, index, Some(c)) ==
      Ok(pe(c, cfgs[index - 1].value, 1, 1.0) + pe(c, cfgs[index + 1].value, 1, 1.0))
  {
    var n := |cfgs|;
    OpenNeighbors(n, index);
    if index == 0 {
      TwoNeighborEnergy(pe, false, cfgs, index, Some(c), n - 1, 1);
      SumOfTwo(pe(c, cfgs[n - 1].value, 2, 0.0), pe(c, cfgs[1].value, 1, 1.0));
    } else if 0 < index < n - 1 {
      TwoNeighborEnergy(pe, false, cfgs, index, Some(c), index - 1, index + 1);
      SumOfTwo(pe(c, cfgs[index - 1].value, 1, 1.0), pe(c, cfgs[index + 1].value, 1, 1.0));
    }
  }

  // ---- with the `IsingModel` shown

  /** `get_int_energy` with the `IsingModel` shown, which defines no
      `get_config_int_energy`: once adjacency has decided `dist` and
      `factor`, reading a missing configuration or looking up that method
      raises AttributeError, so no term ever returns. */
  function IsingIntEnergy(size: nat, pbc: bool, index1: int, config1: Option<int>,
                          index2: int, config2: Option<int>): (r: Result<real>)
    ensures r.Err?
    ensures AdjacentIndex(size, pbc, index1, index2).Err? ==> r == Err(AdjacentIndex(size, pbc, index1, index2).error)
    ensures AdjacentIndex(size, pbc, index1, index2).Ok? ==> r == Err(AttributeError)
  {
    match AdjacentIndex(size, pbc, index1, index2)
    case Err(e) => Err(e)
    case Ok(_) => Err(AttributeError)
  }

  /** `IsingIntEnergy` and `IntEnergy` with any pair energy raise the same
      adjacency errors; where `IntEnergy` returns, `IsingIntEnergy` raises. */
  lemma IsingIntEnergyAgainstParameter(pe: PairEnergy, size: nat, pbc: bool, index1: int, config1: Option<int>,
                                       index2: int, config2: Option<int>)
    ensures IntEnergy(pe, size, pbc, index1, config1, index2, config2).Err? ==>
      IsingIntEnergy(size, pbc, index1, config1, index2, config2) ==
      IntEnergy(pe, size, pbc, index1, config1, index2, config2)
    ensures IntEnergy(pe, size, pbc, index1, config1, index2, config2).Ok? ==>
      IsingIntEnergy(size, pbc, index1, config1, index2, config2) == Err(AttributeError)
  {
  }

  /** `get_site_energy` with the `IsingModel` shown. */
  function IsingSiteEnergyOf(pbc: bool, cfgs: seq<Option<int>>, index: int, config: Option<int>): Result<real>
  {
    match Neighbors(|cfgs|, pbc, index)
    case Err(e) => Err(e)
    case Ok(None) => Err(TypeError)
    case Ok(Some(ns)) =>
      SumResults(seq(|ns|, k requires 0 <= k < |ns| => IsingIntEnergy(|cfgs|, pbc, index, config, ns[k], cfgs[ns[k]])))
  }

  /** `get_system_energy` with the `IsingModel` shown. */
  function IsingSystemEnergyOf(pbc: bool, cfgs: seq<Option<int>>): Result<real>
    requires |cfgs| >= 1
  {
    var ps := ChainTopology.ChainPairs(|cfgs|, pbc);
    ChainTopology.ChainPairsInChain(|cfgs|, pbc);
    SumResults(seq(|ps|, k requires 0 <= k < |ps| =>
      IsingIntEnergy(|cfgs|, pbc, ps[k].0, cfgs[ps[k].0], ps[k].1, cfgs[ps[k].1])))
  }

  /** With the `IsingModel` shown, `get_site_energy` never returns on a chain
      of two or more sites: a site that has a neighbour list raises
      AttributeError at its first neighbour; the others raise as
      `Neighbors` does. */
  lemma IsingSiteEnergy(pbc: bool, cfgs: seq<Option<int>>, index: int, config: Option<int>)
    requires |cfgs| >= 2 && 0 <= index < |cfgs|
    ensures IsingSiteEnergyOf(pbc, cfgs, index, config).Err?
    ensures Neighbors(|cfgs|, pbc, index).Ok? && Neighbors(|cfgs|, pbc, index).value.Some? ==>
      IsingSiteEnergyOf(pbc, cfgs, index, config) == Err(AttributeError)
  {
    var n := |cfgs|;
    if pbc {
      PeriodicNeighbors(n, index);
    } else {
      OpenNeighbors(n, index);
    }
    var nb := Neighbors(n, pbc, index);
    if nb.Ok? && nb.value.Some? {
      var ns := nb.value.value;
      assert |ns| == 2 && ns[0] != index && ns[1] != index;
      var terms := seq(|ns|, k requires 0 <= k < |ns| => IsingIntEnergy(n, pbc, index, config, ns[k], cfgs[ns[k]]));
      forall k | 0 <= k < |terms|
        ensures terms[k] == Err(AttributeError)
      {
        assert AdjacentIndex(n, pbc, index, ns[k]) == ChainTopology.IsAdjacentCoord(n, pbc, index, ns[k]);
      }
      SumResultsOnlyError(terms, AttributeError, 0);
    }
  }

  /** With the `IsingModel` shown, `get_system_energy` never returns on a
      chain of two or more sites: every pair is adjacent, so every term
      raises AttributeError. A one-site chain lists no pair when open, and
      the site paired with itself when periodic. */
  lemma IsingSystemEnergy(pbc: bool, cfgs: seq<Option<int>>)
    requires |cfgs| >= 1
    ensures |cfgs| >= 2 ==> IsingSystemEnergyOf(pbc, cfgs) == Err(AttributeError)
    ensures |cfgs| == 1 && pbc ==> IsingSystemEnergyOf(pbc, cfgs) == Err(AssertionError)
    ensures |cfgs| == 1 && !pbc ==> IsingSystemEnergyOf(pbc, cfgs) == Ok(0.0)
  {
    var n := |cfgs|;
    var ps := ChainTopology.ChainPairs(n, pbc);
    ChainTopology.ChainPairsInChain(n, pbc);
    ChainTopology.ChainPairsCount(n, pbc);
    var terms := seq(|ps|, k requires 0 <= k < |ps| =>
      IsingIntEnergy(n, pbc, ps[k].0, cfgs[ps[k].0], ps[k].1, cfgs[ps[k].1]));
    assert IsingSystemEnergyOf(pbc, cfgs) == SumResults(terms);
    if n >= 2 {
      forall k | 0 <= k < |terms|
        ensures terms[k] == Err(AttributeError)
      {
        ChainTopology.ChainPairsAdjacent(n, pbc, k);
      }
      SumResultsOnlyError(terms, AttributeError, 0);
    } else if pbc {
      ChainTopology.ChainPairsAt(n, pbc, 0);
      assert terms[0] == Err(AssertionError);
      SumResultsOnlyError(terms, AssertionError, 0);
    } else {
      assert terms == [];
    }
  }

  // ---- the loops

  /** `get_adjacent_pairs`, as positions: with periodic boundaries the loop
      runs from `-1`, so the wraparound pair `(size - 1, 0)` comes first. */
  method AdjacentPairs(size: int, pbc: bool) returns (pairs: seq<ChainTopology.Pair>)
    ensures size >= 1 ==> pairs == ChainTopology.ChainPairs(size, pbc)
    ensures size < 1 ==> pairs == []
  {
    pairs := [];
    if pbc {
      var i := -1;
      while i < size - 1
        invariant -1 <= i && (size >= 1 ==> i <= size - 1)
        invariant size < 1 ==> i == -1
        invariant i == -1 ==> pairs == []
        invariant i >= 0 ==> pairs == [(size - 1, 0)] + seq(i, k => (k, k + 1))
      {
        var site1 := PyIndex(size, i).value;
        var site2 := PyIndex(size, i + 1).value;
        pairs := pairs + [(site1, site2)];
        i := i + 1;
      }
    } else {
      var i := 0;
      while i < size - 1
        invariant 0 <= i <= Nat(size - 1)
        invariant pairs == seq(i, k => (k, k + 1))
      {
        pairs := pairs + [(i, i + 1)];
        i := i + 1;
      }
    }
  }

  class SpinChain {
    const size: int
    const isPbc: bool
    const model: IsingModel
    const pairEnergy: PairEnergy
    /** `_spin_site_list`: the list is never rebound; its sites change in place. */
    const sites: seq<IsingSpinSite>
    var temperature: Option<real>
    var beta: Option<real>

    ghost predicate Valid()
      reads this
    {
      size >= 1 && |sites| == size &&
      (forall k :: 0 <= k < |sites| ==> sites[k].index == k) &&
      MonteCarloSystem.TemperatureLinked(temperature, beta)
    }

    /** The configurations of the sites, in list order. */
    function Configs(): (r: seq<Option<int>>)
      reads sites
      ensures |r| == |sites| && forall k :: 0 <= k < |sites| ==> r[k] == sites[k].config
    {
      seq(|sites|, k reads sites requires 0 <= k < |sites| => sites[k].config)
    }

    constructor Init(model: IsingModel, pairEnergy: PairEnergy, sites: seq<IsingSpinSite>, size: int := 10,
                     isPbc: bool := true, temperature: real := 1.0)
      requires size >= 1 && |sites| == size && forall k :: 0 <= k < |sites| ==> sites[k].index == k
      ensures Valid()
      ensures this.model == model && this.pairEnergy == pairEnergy && this.size == size && this.isPbc == isPbc
      ensures this.sites == sites
      ensures this.temperature == (if temperature != 0.0 then Some(temperature) else None)
    {
      this.size := size;
      this.isPbc := isPbc;
      if temperature != 0.0 {
        this.temperature := Some(temperature);
        this.beta := Some(1.0 / temperature);
      } else {
        this.temperature := None;
        this.beta := None;
      }
      this.model := model;
      this.pairEnergy := pairEnergy;
      this.sites := sites;
    }

    /** The constructor: `size` sites made by the model's `get_site(index=i)`,
        each then given its draw of `set_random_config`. A zero temperature
        leaves `temperature` and `beta` unset; an empty chain fails at
        `_spin_site_list[0]`. The defaults are the source's. */
    static method Make(model: IsingModel, pairEnergy: PairEnergy, draws: seq<int>, size: int := 10,
                       isPbc: bool := true, temperature: real := 1.0) returns (r: Result<SpinChain>)
      requires |draws| == Nat(size) && forall k :: 0 <= k < |draws| ==> 0 <= draws[k] < 2
      ensures r.Ok? <==> size >= 1
      ensures r.Err? ==> r.error == IndexError
      ensures r.Ok? ==>
        fresh(r.value) && r.value.Valid() &&
        r.value.model == model && r.value.pairEnergy == pairEnergy &&
        r.value.size == size && r.value.isPbc == isPbc &&
        r.value.temperature == (if temperature != 0.0 then Some(temperature) else None)
      ensures r.Ok? ==> forall k :: 0 <= k < |r.value.sites| ==>
        fresh(r.value.sites[k]) && r.value.sites[k].interactionStrength == model.interactionStrength
      ensures r.Ok? ==> r.value.Configs() == seq(|draws|, k requires 0 <= k < |draws| => Some(draws[k]))
    {
      var sites: seq<IsingSpinSite> := [];
      var i := 0;
      while i < size
        invariant 0 <= i <= Nat(size) && |sites| == i
        invariant forall k :: 0 <= k < i ==>
          fresh(sites[k]) && sites[k].index == k &&
          sites[k].interactionStrength == model.interactionStrength && sites[k].config == None
      {
        var site := model.GetSite(index := i);
        sites := sites + [site];
        i := i + 1;
      }
      i := 0;
      while i < |sites|
        invariant 0 <= i <= |sites|
        invariant forall k :: 0 <= k < |sites| ==>
          fresh(sites[k]) && sites[k].index == k && sites[k].interactionStrength == model.interactionStrength
        invariant forall k :: 0 <= k < |sites| ==> sites[k].config == if k < i then Some(draws[k]) else None
      {
        sites[i].SetRandomConfig(draws[i]);
        i := i + 1;
      }
      if size < 1 {
        return Err(IndexError);
      }
      var chain := new SpinChain.Init(model, pairEnergy, sites, size, isPbc, temperature);
      return Ok(chain);
    }

    /** `get_site_energy` of `site`, which need not be in the list: its own
        index and configuration meet the configurations of the listed
        neighbours. */
    method SiteEnergy(site: IsingSpinSite) returns (r: Result<real>)
      requires Valid()
      ensures r == SiteEnergyOf(pairEnergy, isPbc, Configs(), site.index, site.config)
    {
      ghost var cfgs := Configs();
      var neighbors := Neighbors(|sites|, isPbc, site.index);
      if neighbors.Err? {
        return Err(neighbors.error);
      }
      if neighbors.value.None? {
        return Err(TypeError);
      }
      var ns := neighbors.value.value;
      ghost var terms := SiteTerms(pairEnergy, isPbc, cfgs, site.index, site.config, ns);
      var energy := 0.0;
      var k := 0;
      while k < |ns|
        invariant 0 <= k <= |ns|
        invariant SumResults(terms[..k]) == Ok(energy)
      {
        var neighbor := sites[ns[k]];
        var e := IntEnergy(pairEnergy, size, isPbc, site.index, site.config, neighbor.index, neighbor.config);
        assert e == terms[k];
        if e.Err? {
          SumResultsStop(terms, k);
          return Err(e.error);
        }
        SumResultsStep(terms, k, energy, e.value);
        energy := energy + e.value;
        k := k + 1;
      }
      assert terms[..k] == terms;
      return Ok(energy);
    }

    /** `get_system_energy`. */
    method SystemEnergy() returns (r: Result<real>)
      requires Valid()
      ensures r == SystemEnergyOf(pairEnergy, isPbc, Configs())
    {
      ghost var cfgs := Configs();
      var pairs := AdjacentPairs(size, isPbc);
      ChainTopology.ChainPairsInChain(size, isPbc);
      ghost var terms := PairTerms(pairEnergy, isPbc, cfgs);
      var energy := 0.0;
      var k := 0;
      while k < |pairs|
        invariant 0 <= k <= |pairs|
        invariant SumResults(terms[..k]) == Ok(energy)
      {
        var site1 := sites[pairs[k].0];
        var site2 := sites[pairs[k].1];
        var e := IntEnergy(pairEnergy, size, isPbc, site1.index, site1.config, site2.index, site2.config);
        assert e == terms[k];
        if e.Err? {
          SumResultsStop(terms, k);
          return Err(e.error);
        }
        SumResultsStep(terms, k, energy, e.value);
        energy := energy + e.value;
        k := k + 1;
      }
      assert terms[..k] == terms;
      return Ok(energy);
    }

    /** `set_spin_site_config`: the guarded `set_config` of the one site the
        subscript `index` selects. */
    method SetSpinSiteConfig(index: int, config: int) returns (r: Result<()>)
      requires Valid()
      modifies sites
      ensures PyIndex(|sites|, index).Err? ==> r == Err(IndexError) && Configs() == old(Configs())
      ensures PyIndex(|sites|, index).Ok? ==>
        r == Ok(()) &&
        Configs() == old(Configs())[PyIndex(|sites|, index).value :=
          if KeptBySetConfig(config) then Some(config) else old(Configs())[PyIndex(|sites|, index).value]]
    {
      var position := PyIndex(|sites|, index);
      if position.Err? {
        return Err(IndexError);
      }
      sites[position.value].SetConfig(config);
      return Ok(());
    }

    /** `set_spin_site_random_config`, with `draw` the value `randint(2)` returns. */
    method SetSpinSiteRandomConfig(index: int, draw: int) returns (r: Result<()>)
      requires Valid() && 0 <= draw < 2
      modifies sites
      ensures PyIndex(|sites|, index).Err? ==> r == Err(IndexError) && Configs() == old(Configs())
      ensures PyIndex(|sites|, index).Ok? ==>
        r == Ok(()) && Configs() == old(Configs())[PyIndex(|sites|, index).value := Some(draw)]
    {
      var position := PyIndex(|sites|, index);
      if position.Err? {
        return Err(IndexError);
      }
      sites[position.value].SetRandomConfig(draw);
      return Ok(());
    }

    /** `set_spin_system_random_config`, site `k` receiving `draws[k]`. */
    method SetSpinSystemRandomConfig(draws: seq<int>)
      requires Valid() && |draws| == |sites| && forall k :: 0 <= k < |draws| ==> 0 <= draws[k] < 2
      modifies sites
      ensures Configs() == seq(|draws|, k requires 0 <= k < |draws| => Some(draws[k]))
    {
      var i := 0;
      while i < |sites|
        invariant 0 <= i <= |sites|
        invariant forall k :: 0 <= k < |sites| ==> sites[k].config == if k < i then Some(draws[k]) else old(sites[k].config)
      {
        sites[i].SetRandomConfig(draws[i]);
        i := i + 1;
      }
    }

    /** `set_temperature`: a zero temperature changes nothing, since the
        RuntimeError is built but never raised. */
    method SetTemperature(t: real)
      requires Valid()
      modifies this
      ensures Valid()
      ensures t != 0.0 ==> temperature == Some(t) && beta == Some(1.0 / t)
      ensures t == 0.0 ==> temperature == old(temperature) && beta == old(beta)
    {
      if t != 0.0 {
        temperature := Some(t);
        beta := Some(1.0 / t);
      }
    }
  }
}
