/** The Ising spin site of the 1-D draft, `IsingSpinSite`.

    A site carries a fixed `index` and `interaction_strength`, and a
    configuration that may be missing: the constructor stores only `-1` or
    `1` (for anything else it builds a RuntimeError it never raises), while
    `set_config` stores only `0` or `1`. `config` is `None` while the Python
    attribute has never been assigned. */
module SpinSites {
  import opened Outcomes

  /** The configurations the constructor stores. */
  predicate KeptByConstructor(config: int)
  {
    config == -1 || config == 1
  }

  /** The configurations `set_config` stores. */
  predicate KeptBySetConfig(config: int)
  {
    config == 0 || config == 1
  }

  /** The two guards accept different values: only `1` passes both, `-1`
      only the constructor's and `0` only the setter's. */
  lemma GuardsDisagree(config: int)
    ensures KeptByConstructor(config) && KeptBySetConfig(config) <==> config == 1
    ensures KeptByConstructor(-1) && !KeptBySetConfig(-1)
    ensures !KeptByConstructor(0) && KeptBySetConfig(0)
  {
  }

  class IsingSpinSite {
    const interactionStrength: real
    const index: int
    var config: Option<int>

    /** `IsingSpinSite(config, interaction_strength, index)`, with the source's defaults. */
    constructor (config: int := 0, interactionStrength: real := 1.0, index: int := 1)
      ensures this.interactionStrength == interactionStrength && this.index == index
      ensures KeptByConstructor(config) ==> this.config == Some(config)
      ensures !KeptByConstructor(config) ==> this.config == None
    {
      this.interactionStrength := interactionStrength;
      this.index := index;
      if config == -1 || config == 1 {
        this.config := Some(config);
      } else {
        this.config := None;
      }
    }

    /** `set_config`: stores `0` or `1`, ignores every other value. */
    method SetConfig(config: int)
      modifies this
      ensures KeptBySetConfig(config) ==> this.config == Some(config)
      ensures !KeptBySetConfig(config) ==> this.config == old(this.config)
    {
      if config == 0 || config == 1 {
        this.config := Some(config);
      }
    }

    /** `set_random_config`, with `draw` the value `randint(2)` returns. */
    method SetRandomConfig(draw: int)
      requires 0 <= draw < 2
      modifies this
      ensures config == Some(draw) && KeptBySetConfig(draw)
    {
      SetConfig(draw);
    }
  }
}
