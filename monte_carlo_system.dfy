/** The `SpinSystem` object of the Monte Carlo engine: the chain and the
    square lattice, their site configurations, temperature and the Metropolis
    sweep.

    The configurations of the sites live in one array, `configs[k]` being the
    configuration of the site with index `k`; all other attributes are set by
    the constructor, except `temperature` and `beta`, which `set_temperature`
    may assign later. The source draws a proposal by `set_random_config` and
    decides acceptance by `random() < exp(-beta * diff_energy)`: here the
    proposal is a parameter, and the decision is a `rule` applied to `beta`
    and `diff_energy`. */
module MonteCarloSystem {
  import opened Outcomes
  import opened Sums
  import opened MonteCarloEnergy
  import ChainTopology
  import LatticeTopology

  /** `temperature` and `beta` are set together, `beta` the inverse of a
      non-zero `temperature`, or neither is set. */
  predicate TemperatureLinked(temperature: Option<real>, beta: Option<real>)
  {
    temperature.Some? == beta.Some? &&
    (temperature.Some? ==> temperature.value != 0.0 && beta.value == 1.0 / temperature.value)
  }

  /** One `sweep_site` of site `i` at inverse temperature `b`: the proposal is
      kept when `rule` accepts `b` and the energy the proposal adds to the
      site, else the old configuration is put back. The site energies are
      compared in the closed form `ChainLocalEnergy`, which
      `SweptSiteEnergies` shows is what `get_site_energy` returns. */
  function SweptSite<C>(m: SpinModel<C>, t: Topology, zField: Option<real>, b: real, cfg: seq<C>,
                        i: nat, proposal: C, rule: (real, real) -> bool): (r: seq<C>)
    requires Sweepable(t) && i < |cfg| == |CoordList(t)|
    ensures r == cfg[i := proposal] || r == cfg
    ensures (forall b', d :: rule(b', d)) ==> r == cfg[i := proposal]
    ensures (forall b', d :: !rule(b', d)) ==> r == cfg
  {
    CoordListSize(t);
    var trial := cfg[i := proposal];
    var diff := ChainLocalEnergy(m, t.shape, t.pbc, zField, trial, i) - ChainLocalEnergy(m, t.shape, t.pbc, zField, cfg, i);
    if rule(b, diff) then trial else cfg
  }

  /** `SweptSite` decides on the difference of the two energies
      `get_site_energy` returns for the site, after and before the proposal. */
  lemma SweptSiteEnergies<C>(m: SpinModel<C>, t: Topology, zField: Option<real>, b: real, cfg: seq<C>,
                             i: nat, proposal: C, rule: (real, real) -> bool, before: real, after: real)
    requires Sweepable(t) && i < |cfg| == |CoordList(t)|
    requires SiteEnergyOf(m, t, zField, cfg, i) == Ok(before)
    requires SiteEnergyOf(m, t, zField, cfg[i := proposal], i) == Ok(after)
    ensures SweptSite(m, t, zField, b, cfg, i, proposal, rule) ==
      if rule(b, after - before) then cfg[i := proposal] else cfg
  {
    CoordListSize(t);
    ChainSiteEnergy(m, t.shape, t.pbc, zField, cfg, i);
    ChainSiteEnergy(m, t.shape, t.pbc, zField, cfg[i := proposal], i);
  }

  /** The configurations after `sweep_site` has visited sites `0 .. n - 1` in
      order, each seeing the configurations its predecessors left. */
  function Swept<C>(m: SpinModel<C>, t: Topology, zField: Option<real>, b: real, cfg: seq<C>,
                    proposals: seq<C>, rules: seq<(real, real) -> bool>, n: nat): (r: seq<C>)
    requires Sweepable(t) && |cfg| == |CoordList(t)|
    requires n <= |cfg| && |proposals| == |cfg| && |rules| == |cfg|
    ensures |r| == |cfg|
  {
    if n == 0 then cfg
    else SweptSite(m, t, zField, b, Swept(m, t, zField, b, cfg, proposals, rules, n - 1), n - 1, proposals[n - 1], rules[n - 1])
  }

  /** Visiting site `k` after the sites before it extends the sweep by one site. */
  lemma SweptNext<C>(m: SpinModel<C>, t: Topology, zField: Option<real>, b: real, cfg: seq<C>,
                     proposals: seq<C>, rules: seq<(real, real) -> bool>, k: nat, prev: seq<C>, next: seq<C>)
    requires Sweepable(t) && |cfg| == |CoordList(t)|
    requires k < |cfg| && |proposals| == |cfg| && |rules| == |cfg|
    requires prev == if k == 0 then cfg else Swept(m, t, zField, b, cfg, proposals, rules, k)
    requires next == SweptSite(m, t, zField, b, prev, k, proposals[k], rules[k])
    ensures next == Swept(m, t, zField, b, cfg, proposals, rules, k + 1)
  {
  }

  /** A sweep leaves the sites it has not reached as they were, and puts
      every site it has visited either back or to its proposal. */
  lemma {:induction false} SweptValues<C>(m: SpinModel<C>, t: Topology, zField: Option<real>, b: real, cfg: seq<C>,
                                         proposals: seq<C>, rules: seq<(real, real) -> bool>, n: nat)
    requires Sweepable(t) && |cfg| == |CoordList(t)|
    requires n <= |cfg| && |proposals| == |cfg| && |rules| == |cfg|
    ensures forall k :: n <= k < |cfg| ==> Swept(m, t, zField, b, cfg, proposals, rules, n)[k] == cfg[k]
    ensures forall k :: 0 <= k < n ==>
      Swept(m, t, zField, b, cfg, proposals, rules, n)[k] == cfg[k] ||
      Swept(m, t, zField, b, cfg, proposals, rules, n)[k] == proposals[k]
  {
    if n > 0 {
      SweptValues(m, t, zField, b, cfg, proposals, rules, n - 1);
    }
  }

  /** Rules that accept everything make the sweep install every proposal. */
  lemma {:induction false} SweptAccepting<C>(m: SpinModel<C>, t: Topology, zField: Option<real>, b: real, cfg: seq<C>,
                                            proposals: seq<C>, rules: seq<(real, real) -> bool>, n: nat)
    requires Sweepable(t) && |cfg| == |CoordList(t)|
    requires n <= |cfg| && |proposals| == |cfg| && |rules| == |cfg|
    requires forall k, b', d :: 0 <= k < |rules| ==> rules[k](b', d)
    ensures Swept(m, t, zField, b, cfg, proposals, rules, n) == proposals[..n] + cfg[n..]
  {
    if n > 0 {
      SweptAccepting(m, t, zField, b, cfg, proposals, rules, n - 1);
      var rule := rules[n - 1];
      assert forall b', d :: rule(b', d);
      OverwriteNext(cfg, proposals, n);
    }
  }

  /** Installing proposal `n - 1` over the first `n - 1` proposals. */
  lemma OverwriteNext<C>(cfg: seq<C>, proposals: seq<C>, n: nat)
    requires 0 < n <= |cfg| == |proposals|
    ensures (proposals[..n - 1] + cfg[n - 1..])[n - 1 := proposals[n - 1]] == proposals[..n] + cfg[n..]
  {
    var lhs := (proposals[..n - 1] + cfg[n - 1..])[n - 1 := proposals[n - 1]];
    assert forall k :: 0 <= k < |lhs| ==> lhs[k] == (proposals[..n] + cfg[n..])[k];
  }

  /** Rules that reject everything leave the configurations as they were. */
  lemma {:induction false} SweptRejecting<C>(m: SpinModel<C>, t: Topology, zField: Option<real>, b: real, cfg: seq<C>,
                                            proposals: seq<C>, rules: seq<(real, real) -> bool>, n: nat)
    requires Sweepable(t) && |cfg| == |CoordList(t)|
    requires n <= |cfg| && |proposals| == |cfg| && |rules| == |cfg|
    requires forall k, b', d :: 0 <= k < |rules| ==> !rules[k](b', d)
    ensures Swept(m, t, zField, b, cfg, proposals, rules, n) == cfg
  {
    if n > 0 {
      SweptRejecting(m, t, zField, b, cfg, proposals, rules, n - 1);
    }
  }

  /** The loop of `get_index_neighbors`: `list.index` of each coordinate in turn. */
  method LookupCoords(cl: seq<Coord>, coords: seq<Coord>) returns (r: Result<seq<nat>>)
    ensures r == IndicesOf(cl, coords)
  {
    var neighbors: seq<nat> := [];
    var k := 0;
    while k < |coords|
      invariant 0 <= k <= |coords|
      invariant forall q :: 0 <= q < k ==> coords[q] in cl
      invariant neighbors == seq(k, q requires 0 <= q < k => IndexOf(cl, coords[q]).value)
    {
      var index := IndexOf(cl, coords[k]);
      if index.Err? {
        return Err(index.error);
      }
      neighbors := neighbors + [index.value];
      k := k + 1;
    }
    return Ok(neighbors);
  }

  /** The loop of `get_adjacent_index_pairs`: `list.index` of both ends of each pair in turn. */
  method LookupPairs(cl: seq<Coord>, ps: seq<(Coord, Coord)>) returns (r: Result<seq<(nat, nat)>>)
    ensures r == PairIndices(cl, ps)
  {
    var pairs: seq<(nat, nat)> := [];
    var k := 0;
    while k < |ps|
      invariant 0 <= k <= |ps|
      invariant forall q :: 0 <= q < k ==> ps[q].0 in cl && ps[q].1 in cl
      invariant pairs == seq(k, q requires 0 <= q < k => (IndexOf(cl, ps[q].0).value, IndexOf(cl, ps[q].1).value))
    {
      var index1 := IndexOf(cl, ps[k].0);
      if index1.Err? {
        return Err(index1.error);
      }
      var index2 := IndexOf(cl, ps[k].1);
      if index2.Err? {
        return Err(index2.error);
      }
      pairs := pairs + [(index1.value, index2.value)];
      k := k + 1;
    }
    return Ok(pairs);
  }

    /** The loop of `get_site_energy` over the neighbours of site `i`, adding to `energy`. */
  method AddNeighborEnergies<C>(m: SpinModel<C>, t: Topology, cfg: seq<C>, i: nat, ns: seq<nat>, energy: real)
    returns (r: Result<real>)
    requires i < |cfg| && forall k :: 0 <= k < |ns| ==> ns[k] < |cfg|
    ensures var sum := SumResults(NeighborTerms(m, t, cfg, i, ns));
      r == if sum.Err? then Err(sum.error) else Ok(energy + sum.value)
  {
    ghost var terms := NeighborTerms(m, t, cfg, i, ns);
    ghost var partial := 0.0;
    var total := energy;
    var k := 0;
    while k < |ns|
      invariant 0 <= k <= |ns|
      invariant SumResults(terms[..k]) == Ok(partial)
      invariant total == energy + partial
    {
      var e := SiteIntEnergy(m, t, cfg, i, ns[k]);
      assert e == terms[k];
      if e.Err? {
        SumResultsStop(terms, k);
        return Err(e.error);
      }
      SumResultsStep(terms, k, partial, e.value);
      total := total + e.value;
      partial := partial + e.value;
      k := k + 1;
    }
    assert terms[..k] == terms;
    return Ok(total);
  }

  /** The loop of `get_system_energy` over the adjacent pairs. */
  method AddPairEnergies<C>(m: SpinModel<C>, t: Topology, cfg: seq<C>, ps: seq<(nat, nat)>) returns (r: Result<real>)
    requires forall k :: 0 <= k < |ps| ==> ps[k].0 < |cfg| && ps[k].1 < |cfg|
    ensures r == SumResults(PairTerms(m, t, cfg, ps))
  {
    ghost var terms := PairTerms(m, t, cfg, ps);
    var energy := 0.0;
    var k := 0;
    while k < |ps|
      invariant 0 <= k <= |ps|
      invariant SumResults(terms[..k]) == Ok(energy)
    {
      var e := SiteIntEnergy(m, t, cfg, ps[k].0, ps[k].1);
      assert e == terms[k];
      if e.Err? {
        SumResultsStop(terms, k);
        return Err(e.error);
      }
      SumResultsStep(terms, k, energy, e.value);
      energy := energy + e.value;
      k := k + 1;
    }
    assert terms[..k] == terms;
    return Ok(energy);
  }

  class SpinSystem<C> {
    const model: SpinModel<C>
    const topology: Topology
    const zField: Option<real>
    /** `configs[k]` is the configuration of `_spin_site_list[k]`. */
    const configs: array<C>
    var temperature: Option<real>
    var beta: Option<real>

    ghost predicate Valid()
      reads this
    {
      topology.shape >= 1 &&
      configs.Length == Size(topology) == |CoordList(topology)| &&
      TemperatureLinked(temperature, beta)
    }

    constructor Init(model: SpinModel<C>, topology: Topology, draws: seq<C>, zField: Option<real> := None,
                     temperature: real := 1.0)
      requires topology.shape >= 1 && |draws| == Size(topology)
      ensures Valid() && fresh(configs)
      ensures this.model == model && this.topology == topology && this.zField == zField
      ensures configs[..] == draws
      ensures this.temperature == (if temperature != 0.0 then Some(temperature) else None)
    {
      this.model := model;
      this.topology := topology;
      this.zField := zField;
      if temperature != 0.0 {
        this.temperature := Some(temperature);
        this.beta := Some(1.0 / temperature);
      } else {
        this.temperature := None;
        this.beta := None;
      }
      configs := new C[|draws|](k requires 0 <= k < |draws| => draws[k]);
      CoordListSize(topology);
    }

    /** The constructor of either subclass: a zero temperature leaves
        `temperature` and `beta` unset; each site takes the configuration
        drawn for it; a system with no row fails indexing its first site or
        its first coordinate. The source's defaults `shape=10, is_pbc=True`
        are `DefaultChain` and `DefaultLattice`. */
    static method Make(model: SpinModel<C>, topology: Topology, draws: seq<C>, zField: Option<real> := None,
                       temperature: real := 1.0)
      returns (r: Result<SpinSystem<C>>)
      requires |draws| == Nat(Size(topology))
      ensures r.Ok? <==> topology.shape >= 1
      ensures r.Err? ==> r.error == IndexError
      ensures r.Ok? ==> fresh(r.value) && fresh(r.value.configs) && r.value.Valid()
      ensures r.Ok? ==> r.value.model == model && r.value.topology == topology && r.value.zField == zField
      ensures r.Ok? ==> r.value.configs[..] == draws
      ensures r.Ok? ==> r.value.temperature == (if temperature != 0.0 then Some(temperature) else None)
    {
      CoordListSize(topology);
      if |draws| == 0 {
        return Err(IndexError);
      }
      if |CoordList(topology)| == 0 {
        return Err(IndexError);
      }
      var system := new SpinSystem.Init(model, topology, draws, zField, temperature);
      return Ok(system);
    }

    /** `get_site`: only an index in `[0, size)` passes its assertion; a site
        is identified by its index. */
    function GetSite(index: int): (r: Result<nat>)
      ensures r.Ok? <==> 0 <= index < Size(topology)
      ensures r.Ok? ==> r.value == index
      ensures r.Err? ==> r.error == AssertionError
    {
      if 0 <= index < Size(topology) then Ok(index) else Err(AssertionError)
    }

    /** `get_index_config`: a Python subscript, so a negative index counts
        from the last site. */
    function IndexConfig(index: int): (r: Result<C>)
      reads configs
      ensures r.Ok? <==> -configs.Length <= index < configs.Length
      ensures 0 <= index < configs.Length ==> r == Ok(configs[index])
      ensures -configs.Length <= index < 0 ==> r == Ok(configs[configs.Length + index])
      ensures r.Err? ==> r.error == IndexError
    {
      match PyIndex(configs.Length, index)
      case Err(e) => Err(e)
      case Ok(k) => Ok(configs[k])
    }

    /** `get_index_neighbors`, and `get_site_neighbors` for the site with that
        index (whose `get_site` check passes for every position of the
        coordinate list of a valid system). */
    method IndexNeighbors(index: int) returns (r: Result<seq<nat>>)
      ensures r == NeighborsOf(topology, index)
    {
      var cl := CoordList(topology);
      var position := PyIndex(|cl|, index);
      if position.Err? {
        return Err(position.error);
      }
      var found := CoordNeighbors(topology, cl[position.value]);
      if found.Err? {
        return Err(found.error);
      }
      if found.value.None? {
        return Err(TypeError);
      }
      r := LookupCoords(cl, found.value.value);
    }

    /** `get_adjacent_coord_pairs` of the subclass. */
    method AdjacentCoordPairs() returns (r: Result<seq<(Coord, Coord)>>)
      ensures r == CoordPairsOf(topology)
    {
      match topology
      case Chain(s, pbc) =>
        var pairs := ChainTopology.AdjacentCoordPairs(s, pbc);
        if pairs.Err? {
          return Err(pairs.error);
        }
        var ps := pairs.value;
        return Ok(seq(|ps|, k requires 0 <= k < |ps| => (Point(ps[k].0), Point(ps[k].1))));
      case Lattice(s, pbc) =>
        var pairs := LatticeTopology.AdjacentCoordPairs(s, pbc);
        if pairs.Err? {
          return Err(pairs.error);
        }
        var ps := pairs.value;
        return Ok(seq(|ps|, k requires 0 <= k < |ps| => (Cell(ps[k].0.0, ps[k].0.1), Cell(ps[k].1.0, ps[k].1.1))));
    }

    /** `get_adjacent_index_pairs`, and `get_adjacent_site_pairs` with sites
        identified by their indices. */
    method AdjacentIndexPairs() returns (r: Result<seq<(nat, nat)>>)
      ensures r == IndexPairsOf(topology)
    {
      var coordPairs := AdjacentCoordPairs();
      if coordPairs.Err? {
        return Err(coordPairs.error);
      }
      r := LookupPairs(CoordList(topology), coordPairs.value);
    }

    /** `get_site_energy` of the site with index `i`: the field term first, then the neighbours. */
    method SiteEnergy(i: nat) returns (r: Result<real>)
      requires Valid() && i < configs.Length
      ensures r == SiteEnergyOf(model, topology, zField, configs[..], i)
    {
      var cfg := configs[..];
      var neighbors := IndexNeighbors(i);
      if neighbors.Err? {
        return Err(neighbors.error);
      }
      SiteEnergyNeighbors(model, topology, zField, cfg, i, neighbors.value);
      SiteEnergyFromSum(model, topology, zField, cfg, i, neighbors.value);
      var energy := 0.0;
      if zField.Some? {
        energy := energy + model.fieldEnergy(cfg[i], zField.value);
      }
      r := AddNeighborEnergies(model, topology, cfg, i, neighbors.value, energy);
    }

    /** `get_system_energy`. */
    method SystemEnergy() returns (r: Result<real>)
      requires Valid()
      ensures r == SystemEnergyOf(model, topology, zField, configs[..])
    {
      var cfg := configs[..];
      if zField.Some? && configs.Length > 0 {
        return Err(UnboundLocalError);
      }
      var pairs := AdjacentIndexPairs();
      if pairs.Err? {
        return Err(pairs.error);
      }
      SystemEnergyPairs(model, topology, zField, cfg, pairs.value);
      r := AddPairEnergies(model, topology, cfg, pairs.value);
    }

    /** `set_temperature`: a zero temperature builds a RuntimeError but does
        not raise it, and changes nothing. */
    method SetTemperature(t: real)
      requires Valid()
      modifies this
      ensures Valid()
      ensures t != 0.0 ==> temperature == Some(t) && beta == Some(1.0 / t)
      ensures t == 0.0 ==> temperature == old(temperature) && beta == old(beta)
    {
      if t != 0.0 {
        temperature := Some(t);
        beta := Some(1.0 / t);
      }
    }

    /** `set_index_config`: `get_site` must accept the index. */
    method SetIndexConfig(index: int, config: C) returns (r: Result<()>)
      requires Valid()
      modifies configs
      ensures GetSite(index).Err? ==> r == Err(AssertionError) && configs[..] == old(configs[..])
      ensures GetSite(index).Ok? ==> r == Ok(()) && configs[..] == old(configs[..])[index := config]
    {
      var site := GetSite(index);
      if site.Err? {
        return Err(site.error);
      }
      configs[site.value] := config;
      return Ok(());
    }

    /** `set_site_config` of the site with index `i`: unlike
        `set_index_config`, no `get_site` range assertion, only the
        `isinstance` check that the site is one of the system's. */
    method SetSiteConfig(i: nat, config: C)
      requires Valid() && i < configs.Length
      modifies configs
      ensures configs[..] == old(configs[..])[i := config]
    {
      configs[i] := config;
    }

    /** `sweep_site` of the site with index `i`, with `proposal` the
        configuration `set_random_config` installs and `rule` the test
        `random() < exp(-beta * diff_energy)`. The energy fails
        before anything changes unless the system is a chain of two or more
        sites; an unset `beta` fails after the proposal is installed. */
    method SweepSite(i: nat, proposal: C, rule: (real, real) -> bool) returns (r: Result<()>)
      requires Valid() && i < configs.Length
      modifies configs
      ensures !Sweepable(topology) ==>
        r == Err(if topology.Lattice? then TypeError else ValueError) && configs[..] == old(configs[..])
      ensures Sweepable(topology) && beta.None? ==>
        r == Err(AttributeError) && configs[..] == old(configs[..])[i := proposal]
      ensures Sweepable(topology) && beta.Some? ==>
        r == Ok(()) && configs[..] == SweptSite(model, topology, zField, beta.value, old(configs[..]), i, proposal, rule)
    {
      ghost var before := configs[..];
      var prevConfig := configs[i];
      var prevEnergy := SiteEnergy(i);
      SiteEnergyDefined(model, topology, zField, before, i);
      if prevEnergy.Err? {
        return Err(prevEnergy.error);
      }
      configs[i] := proposal;
      ghost var trial := configs[..];
      assert trial == before[i := proposal];
      var currentEnergy := SiteEnergy(i);
      SiteEnergyDefined(model, topology, zField, trial, i);
      if beta.None? {
        return Err(AttributeError);
      }
      var diffEnergy := currentEnergy.value - prevEnergy.value;
      var doAccept := rule(beta.value, diffEnergy);
      SweptSiteEnergies(model, topology, zField, beta.value, before, i, proposal, rule,
                        prevEnergy.value, currentEnergy.value);
      if !doAccept {
        SetSiteConfig(i, prevConfig);
        assert configs[..] == before;
      }
      return Ok(());
    }

    /** `sweep_system`: `sweep_site` on every site in index order, site `k`
        with its own proposal and its own draw. */
    method SweepSystem(proposals: seq<C>, rules: seq<(real, real) -> bool>) returns (r: Result<()>)
      requires Valid() && |proposals| == configs.Length && |rules| == configs.Length
      modifies configs
      ensures !Sweepable(topology) ==>
        r == Err(if topology.Lattice? then TypeError else ValueError) && configs[..] == old(configs[..])
      ensures Sweepable(topology) && beta.None? ==>
        r == Err(AttributeError) && configs[..] == old(configs[..])[0 := proposals[0]]
      ensures Sweepable(topology) && beta.Some? ==>
        r == Ok(()) &&
        configs[..] == Swept(model, topology, zField, beta.value, old(configs[..]), proposals, rules, configs.Length)
    {
      ghost var start := configs[..];
      ghost var b := if beta.Some? then beta.value else 0.0;
      var k := 0;
      while k < configs.Length
        invariant 0 <= k <= configs.Length
        invariant k > 0 ==> Sweepable(topology) && beta == Some(b)
        invariant configs[..] ==
          if k == 0 then start else Swept(model, topology, zField, b, start, proposals, rules, k)
      {
        ghost var prev := configs[..];
        var step := SweepSite(k, proposals[k], rules[k]);
        if step.Err? {
          return step;
        }
        SweptNext(model, topology, zField, b, start, proposals, rules, k, prev, configs[..]);
        k := k + 1;
      }
      return Ok(());
    }
  }
}
