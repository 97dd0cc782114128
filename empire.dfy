/**
 * The player record the yearly screens update in place. Only the numeric
 * state is kept; names, titles and the country record are display text.
 */
module Empire {

  /** Number of countries, and so of player slots. */
  const COUNTRY_COUNT: nat := 6

  class Player {
    var number: int
    var dead: bool
    var land: int
    var grain: int
    var treasury: int
    var serfCount: int
    var soldierCount: int
    var soldierRevenue: int
    var nobleCount: int
    var merchantCount: int
    var immigrated: int
    var armyEfficiency: int
    var customsTax: int
    var customsTaxRevenue: int
    var salesTax: int
    var salesTaxRevenue: int
    var incomeTax: int
    var incomeTaxRevenue: int
    var marketplaceCount: int
    var marketplaceRevenue: int
    var grainMillCount: int
    var grainMillRevenue: int
    var foundryCount: int
    var foundryRevenue: int
    var shipyardCount: int
    var shipyardRevenue: int
    var palaceCount: int
    var grainForSale: int
    var grainPrice: real
    var ratPct: int
    var grainHarvest: int
    var peopleGrainNeed: int
    var peopleGrainFeed: int
    var armyGrainNeed: int
    var armyGrainFeed: int
    var diedStarvation: int

    /** Serfs, merchants and nobles: the head count the population screen works on. */
    function Population(): int
      reads this
    {
      serfCount + merchantCount + nobleCount
    }
  }
}
