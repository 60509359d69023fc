/** The Ising model of the 1-D draft, `IsingModel`: it stores an interaction
    strength and makes the sites of a system. */
module SpinModels {
  import opened Outcomes
  import opened SpinSites

  class IsingModel {
    const interactionStrength: real

    constructor (interactionStrength: real := 1.0)
      ensures this.interactionStrength == interactionStrength
    {
      this.interactionStrength := interactionStrength;
    }

    /** `get_site`: a new site with the model's interaction strength and the
        given index and configuration; the default configuration `0` is not
        one the site's constructor keeps, so such a site has none. */
    method GetSite(config: int := 0, index: int := 1) returns (site: IsingSpinSite)
      ensures fresh(site)
      ensures site.interactionStrength == interactionStrength && site.index == index
      ensures KeptByConstructor(config) ==> site.config == Some(config)
      ensures !KeptByConstructor(config) ==> site.config == None
      ensures config == 0 ==> site.config == None
    {
      site := new IsingSpinSite(interactionStrength := interactionStrength, config := config, index := index);
    }
  }
}
