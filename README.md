# Monte Carlo spin systems, modelled in Dafny

This project models two versions of the spin-system core of
`monte_carlo_spin_model`.

**The Monte Carlo engine** (`monte_carlo_spin_model/spin_system.py`):
- The abstract `SpinSystem` and its two subclasses: `OneDimensionalSpinChain` and `TwoDimensionalSpinLattice`.
- A system holds:
  - a list of coordinates;
  - one configuration per site;
  - a spin model that prices pairs of configurations and the field term;
  - an optional temperature and `beta = 1 / temperature`.
- It answers adjacency questions, lists neighbours and adjacent pairs, and computes site and system energies.
- It runs a Metropolis sweep. `sweep_site` installs a random configuration at a site. It then keeps that configuration if `random() < exp(-beta * diff_energy)` and restores the old one otherwise. `sweep_system` does this for every site in index order.

**The older draft** in the `spin_model` package:
- `IsingSpinSite`: a site object with a guarded configuration.
- `IsingModel`: makes sites.
- A one-dimensional `OneDimensionalSpinChain` that keeps a list of site objects and updates them in place.

Modules:
- `Outcomes`: Python exceptions become `Result` values with an `Error` kind. Also holds Python list subscripts (`PyIndex`, where a negative index counts from the end) and `list.index` (`IndexOf`).
- `Sums`: a sum over a list of terms, and a sum over terms that may raise. That second sum stops at the first error, as a Python loop would.
- `ChainTopology` and `LatticeTopology`: the coordinate geometry of the two subclasses. This covers `is_adjacent_coord`, `get_coord_neighbors` and `get_adjacent_coord_pairs`.
- `MonteCarloEnergy`: what every query of the base class returns, as functions of the topology, the model and a snapshot of the configurations. Lemmas say what those functions come to on chains and lattices.
- `MonteCarloSystem`: the class `SpinSystem`.
  - Configurations are an `array`, and the temperature and `beta` are fields.
  - The methods run the loops of the source and are proved against the functions of `MonteCarloEnergy`.
  - Also holds the sweep's specification `Swept` and the lemmas about it.
- `SpinSites`, `SpinModels` and `DraftSystem`: the draft's site class, model class and chain class.

Some code the core calls is not shown. These become parameters:
- the spin model's `get_config_int_energy` and `get_field_energy`;
- the random draws of `set_random_config`;
- the acceptance test, a function of `(beta, diff_energy)` that stands for `random() < exp(-beta * diff_energy)`.

Several behaviours of the source as written are modelled as they are, and proved:

**Engine:**
- Lattice adjacency asks for a diagonal step. As a result, no pair that the lattice lists counts as adjacent. A periodic lattice even lists the corner paired with itself, so `get_system_energy` fails there.
- A lattice has no `get_coord_neighbors` of its own, so `get_site_energy`, and with it the sweep, raises on every lattice.
- A one-site chain lists coordinate 1 as its neighbour, which is not in the coordinate list.
- With a field, `get_system_energy` reads a local variable before it is assigned.

**Draft:**
- Periodic neighbours exist only for the two end sites.
- With open boundaries, index 0 reaches back to site `size - 1`, and the last site indexes past the end of the list.
- The two setters of a site accept different values: `-1`/`1` for the constructor, `0`/`1` for `set_config`.

## Model

| member | source | states |
|---|---|---|
| Outcomes.PyIndex | monte_carlo_spin_model/spin_system.py:37-38 | a list subscript succeeds exactly for `-n <= i < n`; it lands in range at the position congruent to `i`, and IndexError otherwise |
| Outcomes.IndexOf | monte_carlo_spin_model/spin_system.py:46-54 | `list.index` succeeds exactly when the item is present; it returns the first position holding it, and ValueError otherwise |
| Sums.SumResultsFirstError | monte_carlo_spin_model/spin_system.py:119-129 | an accumulating loop over terms that may raise returns exactly when every term returns; otherwise it raises the first error |
| Sums.SumResultsAllOk | monte_carlo_spin_model/spin_system.py:119-129 | when every term returns a value, the loop returns the sum of those values |
| Sums.SumResultsOnlyError | monte_carlo_spin_model/spin_system.py:119-129 | when some term raises and every raising term raises the same error, the loop raises that error |
| Sums.SumResultsErrPrefix | monte_carlo_spin_model/spin_system.py:119-129 | once a prefix of the loop has raised, the terms after it do not matter |
| Sums.SumConstant | monte_carlo_spin_model/spin_system.py:119-129 | a sum of `n` equal terms is `n` times the term |
| ChainTopology.IsAdjacentCoord | monte_carlo_spin_model/spin_system.py:198-208 | chain adjacency fails its assertion exactly on equal coordinates |
| ChainTopology.IsAdjacentCoordIsStep | monte_carlo_spin_model/spin_system.py:198-208 | two distinct coordinates are adjacent iff they differ by 1, or, with periodic boundaries, by `shape - 1` |
| ChainTopology.IsAdjacentCoordSymmetric | monte_carlo_spin_model/spin_system.py:198-208 | chain adjacency does not depend on the order of its arguments |
| ChainTopology.CoordNeighbors | monte_carlo_spin_model/spin_system.py:210-227 | an open chain's end has one neighbour, and every other site has two |
| ChainTopology.NeighborsAdjacent | monte_carlo_spin_model/spin_system.py:210-227 | on a chain of two or more sites, every listed neighbour is in the chain and adjacent to the site |
| ChainTopology.NeighborsInChain | monte_carlo_spin_model/spin_system.py:210-227 | on a chain of two or more sites, every listed neighbour lies in `[0, shape)` |
| ChainTopology.AdjacentIffNeighbor | monte_carlo_spin_model/spin_system.py:198-227 | two distinct coordinates of the chain are adjacent exactly when one is listed as the other's neighbour |
| ChainTopology.SingleSiteNeighborOutside | monte_carlo_spin_model/spin_system.py:210-227 | the single site of a one-site chain lists coordinate 1, which lies outside the chain |
| ChainTopology.AdjacentCoordPairs | monte_carlo_spin_model/spin_system.py:229-244 | the pair loop and its closing assertion: the chain's pairs when `shape >= 1`, and AssertionError otherwise |
| ChainTopology.ChainPairsCount | monte_carlo_spin_model/spin_system.py:229-244 | a periodic chain has `shape` pairs and an open one `shape - 1` |
| ChainTopology.ChainPairsAt | monte_carlo_spin_model/spin_system.py:229-244 | pair `k` is `(k, k + 1)` when open; when periodic it is `(shape - 1, 0)` first, then `(k - 1, k)` |
| ChainTopology.ChainPairsInChain | monte_carlo_spin_model/spin_system.py:229-244 | both ends of every pair lie in the chain |
| ChainTopology.ChainPairsAdjacent | monte_carlo_spin_model/spin_system.py:198-244 | on a chain of two or more sites, every listed pair is adjacent |
| ChainTopology.DegreeAppend | monte_carlo_spin_model/spin_system.py:229-244 | the number of pairs touching a site adds up over concatenated lists |
| ChainTopology.RunDegree | monte_carlo_spin_model/spin_system.py:229-244 | how many of the pairs `(i, i + 1)`, `i < n`, touch a site |
| ChainTopology.ChainDegree | monte_carlo_spin_model/spin_system.py:210-244 | each site lies on as many listed pairs as it has listed neighbours; on a periodic chain of three or more that is two |
| LatticeTopology.IsAdjacentCoord | monte_carlo_spin_model/spin_system.py:269-283 | lattice adjacency fails its assertion exactly on equal coordinates |
| LatticeTopology.IsAdjacentCoordIsDiagonal | monte_carlo_spin_model/spin_system.py:269-283 | as written, two distinct coordinates are adjacent only when they differ by one step (or a wrap) along both axes at once |
| LatticeTopology.IsAdjacentCoordSymmetric | monte_carlo_spin_model/spin_system.py:269-283 | lattice adjacency does not depend on the order of its arguments |
| LatticeTopology.RowsContents | monte_carlo_spin_model/spin_system.py:260 | the first `n` rows list `n * shape` grid coordinates, position `k` holding `(i, j)` with `i * shape + j == k` |
| LatticeTopology.CoordListIndex | monte_carlo_spin_model/spin_system.py:260 | the coordinate list has `shape * shape` entries; `list.index` finds `(i, j)` at `i * shape + j` exactly for grid coordinates |
| LatticeTopology.GridPosition | monte_carlo_spin_model/spin_system.py:260 | a grid coordinate's position lies within the list |
| LatticeTopology.PositionUnique | monte_carlo_spin_model/spin_system.py:260 | distinct grid coordinates have distinct positions |
| LatticeTopology.AppendWrapPairs | monte_carlo_spin_model/spin_system.py:290-293 | the periodic loop appends exactly the wrap pairs |
| LatticeTopology.AppendInteriorPairs | monte_carlo_spin_model/spin_system.py:294-297 | the nested loops append exactly the interior pairs, row by row |
| LatticeTopology.AppendEdgePairs | monte_carlo_spin_model/spin_system.py:298-300 | the last loop appends exactly the pairs along the last row and the last column |
| LatticeTopology.AdjacentCoordPairs | monte_carlo_spin_model/spin_system.py:285-305 | `get_adjacent_coord_pairs` with its count assertions: the lattice's pairs when `shape >= 0`, and AssertionError otherwise |
| LatticeTopology.PiecesCount | monte_carlo_spin_model/spin_system.py:290-300 | each wrap round and each edge round adds two pairs |
| LatticeTopology.InteriorRowCount | monte_carlo_spin_model/spin_system.py:294-297 | an interior row of `n` columns adds `2 * n` pairs |
| LatticeTopology.InteriorRowsCount | monte_carlo_spin_model/spin_system.py:294-297 | `n` interior rows add `2 * n * (shape - 1)` pairs |
| LatticeTopology.LatticePairsCount | monte_carlo_spin_model/spin_system.py:301-304 | the counts the closing assertions check: `2 * shape * shape` pairs when periodic, `2 * shape * shape - 2 * shape` when open, none for a negative `shape` |
| LatticeTopology.InteriorRowSteps | monte_carlo_spin_model/spin_system.py:294-297 | every pair of an interior row is one grid step along exactly one axis |
| LatticeTopology.InteriorRowsSteps | monte_carlo_spin_model/spin_system.py:294-297 | the same holds for every interior row |
| LatticeTopology.EdgePairsSteps | monte_carlo_spin_model/spin_system.py:298-300 | every edge pair is one grid step along exactly one axis |
| LatticeTopology.OpenPairsAreGridSteps | monte_carlo_spin_model/spin_system.py:285-305 | with open boundaries every listed pair joins two grid sites one step apart along one axis |
| LatticeTopology.WrapPairsAt | monte_carlo_spin_model/spin_system.py:290-293 | wrap round `i` adds `((0, i), (shape - 1, i))` and `((i, i), (i, shape - 1))` as written |
| LatticeTopology.PeriodicPairsWrapFirst | monte_carlo_spin_model/spin_system.py:290-293 | the periodic list starts with the wrap pairs; its last wrap pair joins the corner to itself |
| LatticeTopology.WrapPairsInGrid | monte_carlo_spin_model/spin_system.py:290-293 | every wrap pair joins two grid coordinates |
| LatticeTopology.LatticePairsInGrid | monte_carlo_spin_model/spin_system.py:285-305 | with either boundary, every listed pair joins two grid coordinates |
| LatticeTopology.WrapPairsNotAdjacent | monte_carlo_spin_model/spin_system.py:269-293 | no wrap pair is adjacent as lattice adjacency is written |
| LatticeTopology.LatticePairsNeverAdjacent | monte_carlo_spin_model/spin_system.py:269-305 | no listed pair of the lattice is adjacent as written |
| MonteCarloEnergy.IsAdjacentCoord | monte_carlo_spin_model/spin_system.py:198-208 | the subclass's adjacency; it fails the assertion on equal coordinates or on a coordinate of the other kind |
| MonteCarloEnergy.IsAdjacentIndex | monte_carlo_spin_model/spin_system.py:11-15 | IndexError for an index outside either end of the list; in range, negative subscripts counting from the end, the adjacency of the two coordinates |
| MonteCarloEnergy.IndicesOf | monte_carlo_spin_model/spin_system.py:46-54 | succeeds exactly when every neighbour is in the coordinate list; each result points back at its coordinate; ValueError otherwise |
| MonteCarloEnergy.NeighborsOf | monte_carlo_spin_model/spin_system.py:46-66 | every neighbour index returned lies within the coordinate list |
| MonteCarloEnergy.PairIndices | monte_carlo_spin_model/spin_system.py:71-79 | succeeds exactly when both ends of every pair are listed; each index pair points back at its coordinates; ValueError otherwise |
| MonteCarloEnergy.IndexPairsOf | monte_carlo_spin_model/spin_system.py:71-93 | every index pair returned lies within the coordinate list |
| MonteCarloEnergy.SiteIntEnergy | monte_carlo_spin_model/spin_system.py:95-103 | raises exactly when adjacency raises; `dist = 1, factor = 1.0` for adjacent sites, `dist = 2, factor = 0.0` otherwise |
| MonteCarloEnergy.SystemEnergyPairs | monte_carlo_spin_model/spin_system.py:119-129 | proof helper, unfolding the definition: once the pairs are listed, the system energy is the loop over their pair terms |
| MonteCarloEnergy.SiteEnergyFromSum | monte_carlo_spin_model/spin_system.py:105-117 | proof helper, unfolding the definition: the site energy is the field term plus the neighbour loop, or that loop's first error |
| MonteCarloEnergy.SiteEnergyNeighbors | monte_carlo_spin_model/spin_system.py:105-117 | proof helper, unfolding the definition: once the neighbours are listed, they lie in range and the site energy is computed from them |
| MonteCarloEnergy.ChainIndexOf | monte_carlo_spin_model/spin_system.py:189 | on the chain, `list.index` of coordinate `x` is `x` inside the chain and ValueError outside |
| MonteCarloEnergy.LatticeCoordIn | monte_carlo_spin_model/spin_system.py:260 | every grid coordinate is in the lattice's coordinate list |
| MonteCarloEnergy.CoordListSize | monte_carlo_spin_model/spin_system.py:189-196 | a system with at least one row has as many coordinates as sites, and none otherwise |
| MonteCarloEnergy.ChainNeighbors | monte_carlo_spin_model/spin_system.py:46-54 | on a chain of two or more sites, `get_index_neighbors` returns the neighbour coordinates themselves |
| MonteCarloEnergy.SingleSiteNeighbors | monte_carlo_spin_model/spin_system.py:46-54 | on a one-site chain, `get_index_neighbors` raises ValueError |
| MonteCarloEnergy.LatticeNeighbors | monte_carlo_spin_model/spin_system.py:43-54 | on the lattice, iterating the stub's `None` raises TypeError |
| MonteCarloEnergy.ChainIsAdjacentIndex | monte_carlo_spin_model/spin_system.py:11-15 | on the chain, index adjacency is coordinate adjacency |
| MonteCarloEnergy.ChainNeighborTerm | monte_carlo_spin_model/spin_system.py:95-117 | each neighbour term of a chain site is the nearest-neighbour pair energy |
| MonteCarloEnergy.ChainSiteEnergy | monte_carlo_spin_model/spin_system.py:105-117 | on a chain of two or more sites, the site energy is the field term plus the nearest-neighbour energies against the listed neighbours |
| MonteCarloEnergy.SiteEnergyDefined | monte_carlo_spin_model/spin_system.py:105-117 | `get_site_energy` returns exactly on chains of two or more sites; otherwise ValueError on a one-site chain and TypeError on a lattice |
| MonteCarloEnergy.ChainIndexPairs | monte_carlo_spin_model/spin_system.py:71-79 | on a chain of two or more sites, the index pairs are the coordinate pairs |
| MonteCarloEnergy.ChainPairTerm | monte_carlo_spin_model/spin_system.py:95-103 | each pair term of a chain is the nearest-neighbour pair energy |
| MonteCarloEnergy.ChainSystemEnergy | monte_carlo_spin_model/spin_system.py:119-129 | without a field, the chain's energy is the sum of nearest-neighbour energies over its edges |
| MonteCarloEnergy.UniformBondEnergy | monte_carlo_spin_model/spin_system.py:119-129 | when every site holds the same configuration, each bond contributes the same energy |
| MonteCarloEnergy.UniformChainBonds | monte_carlo_spin_model/spin_system.py:119-129 | on a uniform chain, the bond sum is the number of pairs times one pair energy |
| MonteCarloEnergy.UniformChainEnergy | monte_carlo_spin_model/spin_system.py:119-129 | a uniform chain's energy is its number of bonds times one pair energy |
| MonteCarloEnergy.LatticeIndexPairs | monte_carlo_spin_model/spin_system.py:71-79 | every lattice pair has an index pair, and it points back at its coordinates |
| MonteCarloEnergy.LatticeTerm | monte_carlo_spin_model/spin_system.py:95-103 | a lattice pair term is the `dist = 2, factor = 0.0` energy, or AssertionError for the corner paired with itself |
| MonteCarloEnergy.OpenLatticeSystemEnergy | monte_carlo_spin_model/spin_system.py:119-129 | with open boundaries and no field, the lattice energy prices every listed pair with `dist = 2, factor = 0.0` |
| MonteCarloEnergy.PeriodicLatticeSystemEnergy | monte_carlo_spin_model/spin_system.py:119-129 | with periodic boundaries, `get_system_energy` raises AssertionError |
| MonteCarloEnergy.FieldSystemEnergy | monte_carlo_spin_model/spin_system.py:119-129 | with a field, `get_system_energy` raises UnboundLocalError at `site_energy` |
| MonteCarloSystem.SweptSite | monte_carlo_spin_model/spin_system.py:147-162 | one visit leaves either the proposal or the old configuration; an always-accepting rule installs the proposal, and an always-rejecting one keeps the old configuration |
| MonteCarloSystem.SweptSiteEnergies | monte_carlo_spin_model/spin_system.py:147-162 | the visit decides on `beta` and the difference of the two `get_site_energy` results |
| MonteCarloSystem.Swept | monte_carlo_spin_model/spin_system.py:164-166 | a sweep keeps the number of sites |
| MonteCarloSystem.SweptNext | monte_carlo_spin_model/spin_system.py:164-166 | visiting site `k` after the earlier sites extends the sweep by that site |
| MonteCarloSystem.SweptValues | monte_carlo_spin_model/spin_system.py:164-166 | unvisited sites keep their configuration; each visited site holds its proposal or its previous configuration |
| MonteCarloSystem.SweptAccepting | monte_carlo_spin_model/spin_system.py:147-166 | rules that accept everything install every proposal |
| MonteCarloSystem.OverwriteNext | monte_carlo_spin_model/spin_system.py:147-166 | installing proposal `n - 1` over the first `n - 1` proposals gives the first `n` |
| MonteCarloSystem.SweptRejecting | monte_carlo_spin_model/spin_system.py:147-166 | rules that reject everything leave every configuration as it was |
| MonteCarloSystem.LookupCoords | monte_carlo_spin_model/spin_system.py:46-54 | the `list.index` loop returns what `IndicesOf` specifies |
| MonteCarloSystem.LookupPairs | monte_carlo_spin_model/spin_system.py:71-79 | the pair loop returns what `PairIndices` specifies |
| MonteCarloSystem.AddNeighborEnergies | monte_carlo_spin_model/spin_system.py:111-117 | the neighbour loop adds the sum of the terms to the field energy, or raises the first error |
| MonteCarloSystem.AddPairEnergies | monte_carlo_spin_model/spin_system.py:123-129 | the pair loop returns the sum of the pair terms, or raises the first error |
| MonteCarloSystem.SpinSystem.Init | monte_carlo_spin_model/spin_system.py:176-196 | the system holds the given model, topology, field and configurations; a zero temperature leaves temperature and `beta` unset |
| MonteCarloSystem.SpinSystem.Make | monte_carlo_spin_model/spin_system.py:176-196 | construction succeeds exactly when there is at least one row; if not, IndexError at `[0]` |
| MonteCarloSystem.SpinSystem.GetSite | monte_carlo_spin_model/spin_system.py:30-35 | the assertion admits exactly indices in `[0, size)` |
| MonteCarloSystem.SpinSystem.IndexConfig | monte_carlo_spin_model/spin_system.py:37-38 | a subscript with Python's negative indices, and IndexError outside |
| MonteCarloSystem.SpinSystem.IndexNeighbors | monte_carlo_spin_model/spin_system.py:46-66 | returns `NeighborsOf` |
| MonteCarloSystem.SpinSystem.AdjacentCoordPairs | monte_carlo_spin_model/spin_system.py:229-244 | returns the subclass's coordinate pairs |
| MonteCarloSystem.SpinSystem.AdjacentIndexPairs | monte_carlo_spin_model/spin_system.py:71-93 | returns `IndexPairsOf` |
| MonteCarloSystem.SpinSystem.SiteEnergy | monte_carlo_spin_model/spin_system.py:105-117 | returns `SiteEnergyOf` of the current configurations |
| MonteCarloSystem.SpinSystem.SystemEnergy | monte_carlo_spin_model/spin_system.py:119-129 | returns `SystemEnergyOf` of the current configurations |
| MonteCarloSystem.SpinSystem.SetTemperature | monte_carlo_spin_model/spin_system.py:131-136 | a nonzero temperature sets `beta = 1 / t`; zero changes nothing |
| MonteCarloSystem.SpinSystem.SetIndexConfig | monte_carlo_spin_model/spin_system.py:138-141 | writes one configuration when `get_site` admits the index; AssertionError and no change otherwise |
| MonteCarloSystem.SpinSystem.SetSiteConfig | monte_carlo_spin_model/spin_system.py:143-145 | writes the one configuration, with no range assertion, and changes nothing else |
| MonteCarloSystem.SpinSystem.SweepSite | monte_carlo_spin_model/spin_system.py:147-162 | fails with no change unless the system is sweepable; with `beta` unset, AttributeError after installing the proposal; otherwise the configurations become `SweptSite` |
| MonteCarloSystem.SpinSystem.SweepSystem | monte_carlo_spin_model/spin_system.py:164-166 | the same failures, raised at site 0; otherwise the configurations become the full sweep `Swept` |
| SpinSites.GuardsDisagree | spin_model/spin_site.py:8-19 | the constructor's and `set_config`'s guards agree only on `1` |
| SpinSites.IsingSpinSite.constructor | spin_model/spin_site.py:8-15 | keeps the strength and index; stores the configuration only when it is `-1` or `1` |
| SpinSites.IsingSpinSite.SetConfig | spin_model/spin_site.py:17-19 | stores `0` or `1`, and leaves the configuration as it was for any other value |
| SpinSites.IsingSpinSite.SetRandomConfig | spin_model/spin_site.py:21-23 | the draw is stored |
| SpinModels.IsingModel.constructor | spin_model/spin_model.py:10-11 | keeps the interaction strength |
| SpinModels.IsingModel.GetSite | spin_model/spin_model.py:13-16 | a fresh site with the model's strength and the given index; the default configuration `0` leaves it unset |
| DraftSystem.AdjacentIndex | spin_model/spin_system.py:29-45 | IndexError for an index outside either end; in range, negative subscripts counting from the end, the chain's adjacency |
| DraftSystem.Lookup | spin_model/spin_system.py:57-61 | the two-site list exists exactly when both subscripts are valid, and both lie within the list |
| DraftSystem.Neighbors | spin_model/spin_system.py:52-61 | every neighbour returned lies within the list |
| DraftSystem.PeriodicNeighbors | spin_model/spin_system.py:55-59 | the ends see `[1, size - 1]` and `[0, size - 2]`; every other site gets `None` |
| DraftSystem.OpenNeighbors | spin_model/spin_system.py:60-61 | site 0 sees `[size - 1, 1]`, an inner site sees `[index - 1, index + 1]`, and the last site raises IndexError |
| DraftSystem.NeighborsAgainstEngine | spin_model/spin_system.py:52-61 | agrees with the engine's `get_coord_neighbors` on open inner sites and (reversed) on periodic ends; it returns `None` elsewhere |
| DraftSystem.IntEnergy | spin_model/spin_system.py:77-82 | the adjacency error first, then AttributeError for a missing configuration; `dist = 1, factor = 1.0` exactly for adjacent sites |
| DraftSystem.PairTerm | spin_model/spin_system.py:92-99 | each pair term is the nearest-neighbour energy, or AttributeError |
| DraftSystem.SiteOnPair | spin_model/spin_system.py:63-75 | every site is an end of some listed pair |
| DraftSystem.SystemEnergyDefined | spin_model/spin_system.py:92-99 | `get_system_energy` returns exactly when every site has a configuration, and then gives the bond sum; AttributeError otherwise |
| DraftSystem.TwoNeighborEnergy | spin_model/spin_system.py:84-90 | proof helper, unfolding the definition: a site with two listed neighbours has the sum of its two terms |
| DraftSystem.SumOfTwo | spin_model/spin_system.py:84-90 | the loop over two returning terms gives their sum |
| DraftSystem.PeriodicSiteEnergy | spin_model/spin_system.py:52-90 | periodic: TypeError except at the two ends, whose energies are their two nearest-neighbour terms |
| DraftSystem.OpenSiteEnergy | spin_model/spin_system.py:52-90 | open: the last site raises IndexError; site 0 pairs with `size - 1` at `dist = 2` and with site 1 at `dist = 1`; an inner site has two nearest-neighbour terms |
| DraftSystem.IsingIntEnergy | spin_model/spin_system.py:77-82 | with the `IsingModel` shown, a term never returns: the adjacency error first, AttributeError otherwise |
| DraftSystem.IsingIntEnergyAgainstParameter | spin_model/spin_system.py:77-82 | the as-written term raises the same adjacency errors as `IntEnergy`, and AttributeError wherever `IntEnergy` returns |
| DraftSystem.IsingSiteEnergy | spin_model/spin_system.py:84-90 | with the `IsingModel` shown, `get_site_energy` never returns on two or more sites; AttributeError wherever a neighbour list exists |
| DraftSystem.IsingSystemEnergy | spin_model/spin_system.py:92-99 | with the `IsingModel` shown, `get_system_energy` raises AttributeError on two or more sites; on one site AssertionError when periodic, `0.0` when open |
| DraftSystem.AdjacentPairs | spin_model/spin_system.py:63-75 | the pair loop lists the engine's chain pairs, `(size - 1, 0)` first when periodic |
| DraftSystem.SpinChain.Configs | spin_model/spin_system.py:20-23 | position `k` holds the configuration of the `k`-th site |
| DraftSystem.SpinChain.Init | spin_model/spin_system.py:9-27 | keeps the model, size, boundary and sites; a zero temperature leaves temperature and `beta` unset |
| DraftSystem.SpinChain.Make | spin_model/spin_system.py:9-27 | succeeds exactly when `size >= 1`, with fresh sites of the model's strength holding the draws; IndexError at `[0]` otherwise |
| DraftSystem.SpinChain.SiteEnergy | spin_model/spin_system.py:84-90 | returns `SiteEnergyOf` of the current configurations |
| DraftSystem.SpinChain.SystemEnergy | spin_model/spin_system.py:92-99 | returns `SystemEnergyOf` of the current configurations |
| DraftSystem.SpinChain.SetSpinSiteConfig | spin_model/spin_system.py:101-102 | the guarded set of the one subscripted site; IndexError and no change outside the list |
| DraftSystem.SpinChain.SetSpinSiteRandomConfig | spin_model/spin_system.py:104-105 | the draw is stored at the subscripted site; IndexError and no change outside the list |
| DraftSystem.SpinChain.SetSpinSystemRandomConfig | spin_model/spin_system.py:107-109 | every site holds its draw |
| DraftSystem.SpinChain.SetTemperature | spin_model/spin_system.py:111-116 | a nonzero temperature sets `beta = 1 / t`; zero changes nothing |

## Left out

- Floating point. Energies and temperatures are Dafny `real`s, so rounding is not modelled.
- `random()`, `exp` and `randint`: the draws enter as parameters, and the acceptance test as the `rule` oracle. The proofs say nothing about the distribution of the draws.
- Spin models are not part of this model: `get_config_int_energy`, `get_field_energy` and `make_site` enter as uninterpreted functions. The engine's site class is not shown either; its `set_config` is taken to store the value it receives.
- `isinstance` checks on coordinates and indices. Dafny's types already rule out most wrong kinds. Only the chain/lattice mismatch remains, and it raises AssertionError.
- `get_site_neighbors` and `get_adjacent_site_pairs` of the engine. They are modelled through the site's index, since a site there is its index.
- `get_coord_neighbors` of the lattice. The lattice only inherits the base stub returning `None`, modelled as the TypeError its caller raises.
- MonteCarloEnergy.FieldSystemEnergy: with a field, only the UnboundLocalError is stated. The field branch never runs to completion.
- MonteCarloSystem.SweptSite: compares the closed-form chain energies `ChainLocalEnergy`. SweptSiteEnergies proves these equal the two `get_site_energy` results.
- The draft's `IsingModel` defines no `get_config_int_energy`, so the draft's pair energy is the parameter `pairEnergy`. With `IsingModel` as shown, every `get_int_energy` that gets past adjacency raises AttributeError. So on a chain of two or more sites, `get_site_energy` and `get_system_energy` never return; `IsingSiteEnergy` and `IsingSystemEnergy` state this. The following members describe a model that does define the method: DraftSystem.IntEnergy, DraftSystem.PairTerm, DraftSystem.SystemEnergyDefined, DraftSystem.TwoNeighborEnergy, DraftSystem.PeriodicSiteEnergy, DraftSystem.OpenSiteEnergy, DraftSystem.SpinChain.SiteEnergy and DraftSystem.SpinChain.SystemEnergy.
- Draft sites are named by their position in the site list, and that position equals their index. A site object outside the list is not compared by identity.
- Constructor defaults. `z_field=None` and `temperature=1.0` are default values of `SpinSystem.Make`; the draft's `size=10`, `is_pbc=True` and `temperature=1.0` are defaults of `SpinChain.Make`. The engine's `shape=10, is_pbc=True` sit inside the one `topology` parameter, so a caller passes `DefaultChain` or `DefaultLattice` rather than omitting it.
- The print and display stubs of the draft chain.
- The `XYModel` and `HubbardModel` stubs, and the site stubs `get_int_energy` and `do_something`. None of them has a body to model.
- The annealing drivers `annealing.py` and `annealing_algrithm.py`. They are callers of the core, not part of it.
