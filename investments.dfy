/**
 * The computing part of the investments screen (investments.c): the year's
 * revenue from marketplaces, grain mills, foundries and shipyards, the army's
 * upkeep, the three taxes, and their sum paid into the treasury.
 *
 * The C library's `pow` is a parameter: `pow(x, e)` stands for
 * `(int) pow((double) x, e)` for the three exponents the screen uses.
 */
module Investments {
  import opened CMath
  import opened Random
  import opened Empire

  /** The exponents 0.9, 0.85 and 0.97 the revenues are damped with. */
  datatype Exponent = NineTenths | SeventeenTwentieths | NinetySevenHundredths

  /**
   * What `(int) pow(x, e)` does for an exponent below one: 0 stays 0, a
   * non-negative amount never grows, and an amount of at least 1 stays at
   * least 1.
   */
  ghost predicate Damping(pow: (int, Exponent) -> int) {
    forall x: int, e: Exponent {:trigger pow(x, e)} ::
      x >= 0 ==> 0 <= pow(x, e) <= x && (x >= 1 ==> pow(x, e) >= 1)
  }

  /** `12 * (merchants + r1 + r2) / (salesTax + 1) + 5`: what one marketplace earns. */
  function MarketplaceYield(merchants: int, salesTax: int, r1: int, r2: int): int
    requires salesTax + 1 != 0
  {
    CDiv(12 * (merchants + r1 + r2), salesTax + 1) + 5
  }

  /** The marketplace revenue: the yield of all marketplaces, damped by the 0.9 power. */
  function MarketplaceRevenue(count: int, merchants: int, salesTax: int, r1: int, r2: int,
                              pow: (int, Exponent) -> int): int
    requires salesTax + 1 != 0
  {
    pow(count * MarketplaceYield(merchants, salesTax, r1, r2), NineTenths)
  }

  /**
   * No marketplace earns nothing; otherwise the revenue is positive and at
   * most the undamped yield of all marketplaces at the highest draws.
   */
  lemma MarketplaceBounds(count: int, merchants: int, salesTax: int, r1: int, r2: int,
                          pow: (int, Exponent) -> int)
    requires Damping(pow)
    requires count >= 0 && merchants >= 0 && salesTax >= 0 && InRange(r1, 35) && InRange(r2, 35)
    ensures count == 0 ==> MarketplaceRevenue(count, merchants, salesTax, r1, r2, pow) == 0
    ensures count > 0 ==> 1 <= MarketplaceRevenue(count, merchants, salesTax, r1, r2, pow)
                            <= count * (12 * (merchants + 70) + 5)
  {
    var y := MarketplaceYield(merchants, salesTax, r1, r2);
    assert 5 <= y <= 12 * (merchants + 70) + 5;
    MulLe(count, 5, y);
    MulLe(count, y, 12 * (merchants + 70) + 5);
    assert pow(count * y, NineTenths) == MarketplaceRevenue(count, merchants, salesTax, r1, r2, pow);
  }

  /** The divisor of the grain-mill yield: larger with every point of income or sales tax. */
  function MillDivisor(incomeTax: int, salesTax: int): int {
    20 * incomeTax + 40 * salesTax + 150
  }

  /** `(int) (5.8 * (harvest + r)) / (20 * incomeTax + 40 * salesTax + 150)`: what one mill earns. */
  function GrainMillYield(harvest: int, r: int, incomeTax: int, salesTax: int): int
    requires MillDivisor(incomeTax, salesTax) != 0
  {
    CDiv(CDiv(58 * (harvest + r), 10), MillDivisor(incomeTax, salesTax))
  }

  /** The grain-mill revenue: the yield of all mills, damped by the 0.9 power. */
  function GrainMillRevenue(count: int, harvest: int, r: int, incomeTax: int, salesTax: int,
                            pow: (int, Exponent) -> int): int
    requires MillDivisor(incomeTax, salesTax) != 0
  {
    pow(count * GrainMillYield(harvest, r, incomeTax, salesTax), NineTenths)
  }

  /**
   * No mill earns nothing; otherwise the revenue is at most the undamped
   * yield of all mills, and one mill yields at most a 150th of 5.8 times the
   * harvest and the highest draw.
   */
  lemma GrainMillBounds(count: int, harvest: int, r: int, incomeTax: int, salesTax: int,
                        pow: (int, Exponent) -> int)
    requires Damping(pow)
    requires count >= 0 && harvest >= 0 && incomeTax >= 0 && salesTax >= 0 && InRange(r, 250)
    ensures count == 0 ==> GrainMillRevenue(count, harvest, r, incomeTax, salesTax, pow) == 0
    ensures 0 <= GrainMillRevenue(count, harvest, r, incomeTax, salesTax, pow)
              <= count * GrainMillYield(harvest, r, incomeTax, salesTax)
    ensures 0 <= 150 * GrainMillYield(harvest, r, incomeTax, salesTax) <= CDiv(58 * (harvest + 250), 10)
  {
    var scaled := CDiv(58 * (harvest + r), 10);
    var y := GrainMillYield(harvest, r, incomeTax, salesTax);
    CDivMonotone(58 * (harvest + r), 58 * (harvest + 250), 10);
    assert MillDivisor(incomeTax, salesTax) * y <= scaled;
    MulLe(y, 150, MillDivisor(incomeTax, salesTax));
    MulLe(count, 0, y);
    assert pow(count * y, NineTenths) == GrainMillRevenue(count, harvest, r, incomeTax, salesTax, pow);
  }

  /** What the foundries would earn: `pow(count * (soldiers + r + 400), 0.9)`. */
  function FoundryEarnings(count: int, soldiers: int, r: int, pow: (int, Exponent) -> int): int {
    pow(count * (soldiers + r + 400), NineTenths)
  }

  /** What the shipyards would earn: `pow(count * (4 merchants + 9 marketplaces + 15 foundries) * weather, 0.9)`. */
  function ShipyardEarnings(count: int, merchants: int, marketplaces: int, foundries: int, weather: int,
                            pow: (int, Exponent) -> int): int {
    pow(count * (4 * merchants + 9 * marketplaces + 15 * foundries) * weather, NineTenths)
  }

  /** A working foundry with a non-negative army earns at least one unit a year. */
  lemma FoundryEarns(count: int, soldiers: int, r: int, pow: (int, Exponent) -> int)
    requires Damping(pow) && count >= 1 && soldiers >= 0 && InRange(r, 150)
    ensures FoundryEarnings(count, soldiers, r, pow) >= 1
  {
    MulLe(count, 1, soldiers + r + 400);
    assert pow(count * (soldiers + r + 400), NineTenths) >= 1;
  }

  /** `customsTax * immigrated * (r1 + r2) / 100`: the customs duty on the year's immigrants. */
  function CustomsRevenue(customsTax: int, immigrated: int, r1: int, r2: int): int {
    CDiv(customsTax * immigrated * (r1 + r2), 100)
  }

  /**
   * No duty without a tax or without immigrants; with two draws of at most 40
   * each, the duty is at most 80% of tax times immigrants.
   */
  lemma CustomsBounds(customsTax: int, immigrated: int, r1: int, r2: int)
    requires customsTax >= 0 && immigrated >= 0 && InRange(r1, 40) && InRange(r2, 40)
    ensures customsTax == 0 || immigrated == 0 ==> CustomsRevenue(customsTax, immigrated, r1, r2) == 0
    ensures 0 <= CustomsRevenue(customsTax, immigrated, r1, r2)
    ensures 100 * CustomsRevenue(customsTax, immigrated, r1, r2) <= 80 * (customsTax * immigrated)
  {
    MulLe(customsTax, 0, immigrated);
    MulLe(customsTax * immigrated, r1 + r2, 80);
    MulLe(customsTax * immigrated, 0, r1 + r2);
  }

  /** The trade volume the sales tax damps: merchants and the four industries' revenue on record. */
  function TradeVolume(merchants: int, marketplaceRevenue: int, grainMillRevenue: int,
                       foundryRevenue: int, shipyardRevenue: int): int {
    CDiv(18 * merchants, 10) + 33 * marketplaceRevenue + 17 * grainMillRevenue
    + 50 * foundryRevenue + 70 * shipyardRevenue
  }

  /**
   * The sales tax: `salesTax` percent of the damped (0.85 power) trade volume,
   * plus five per noble and one per serf.
   */
  function SalesTaxRevenue(salesTax: int, nobles: int, serfs: int, volume: int,
                           pow: (int, Exponent) -> int): int {
    CDiv(salesTax * (pow(volume, SeventeenTwentieths) + 5 * nobles + serfs), 100)
  }

  /**
   * No sales tax brings in nothing; a non-negative tax on non-negative trade
   * and people brings in nothing negative, and at most the tax's share of the
   * undamped volume and the people.
   */
  lemma SalesTaxBounds(salesTax: int, nobles: int, serfs: int, volume: int, pow: (int, Exponent) -> int)
    requires Damping(pow)
    requires salesTax >= 0 && nobles >= 0 && serfs >= 0 && volume >= 0
    ensures salesTax == 0 ==> SalesTaxRevenue(salesTax, nobles, serfs, volume, pow) == 0
    ensures 0 <= SalesTaxRevenue(salesTax, nobles, serfs, volume, pow)
    ensures 100 * SalesTaxRevenue(salesTax, nobles, serfs, volume, pow) <= salesTax * (volume + 5 * nobles + serfs)
  {
    var base := pow(volume, SeventeenTwentieths) + 5 * nobles + serfs;
    assert 0 <= base <= volume + 5 * nobles + serfs;
    MulLe(salesTax, 0, base);
    MulLe(salesTax, base, volume + 5 * nobles + serfs);
  }

  /** The income-tax base: so much per serf, noble, merchant and building. */
  function IncomeBase(serfs: int, nobles: int, merchants: int, marketplaces: int, mills: int,
                      foundries: int, shipyards: int): int {
    CDiv(13 * serfs, 10) + 145 * nobles + 39 * merchants + 99 * marketplaces + 99 * mills
    + 425 * foundries + 965 * shipyards
  }

  /** The income tax: `incomeTax` percent of the base, damped by the 0.97 power. */
  function IncomeTaxRevenue(incomeTax: int, base: int, pow: (int, Exponent) -> int): int {
    pow(CDiv(incomeTax * base, 100), NinetySevenHundredths)
  }

  /** No income tax brings in nothing; otherwise at most the tax's share of the base. */
  lemma IncomeTaxBounds(incomeTax: int, base: int, pow: (int, Exponent) -> int)
    requires Damping(pow) && incomeTax >= 0 && base >= 0
    ensures incomeTax == 0 ==> IncomeTaxRevenue(incomeTax, base, pow) == 0
    ensures 0 <= IncomeTaxRevenue(incomeTax, base, pow) <= CDiv(incomeTax * base, 100)
  {
    MulLe(incomeTax, 0, base);
    assert pow(CDiv(incomeTax * base, 100), NinetySevenHundredths) == IncomeTaxRevenue(incomeTax, base, pow);
  }

  /** The army's upkeep: 8 per soldier, paid out of the treasury. */
  const SOLDIER_UPKEEP: int := 8

  /** The part of a player's record the revenues are computed from. */
  datatype Holdings = Holdings(
    serfs: int, nobles: int, merchants: int, soldiers: int, immigrated: int,
    customsTax: int, salesTax: int, incomeTax: int,
    marketplaces: int, mills: int, foundries: int, shipyards: int,
    harvest: int, foundryRevenue: int, shipyardRevenue: int)

  function HoldingsOf(p: Player): Holdings
    reads p
  {
    Holdings(p.serfCount, p.nobleCount, p.merchantCount, p.soldierCount, p.immigrated,
             p.customsTax, p.salesTax, p.incomeTax,
             p.marketplaceCount, p.grainMillCount, p.foundryCount, p.shipyardCount,
             p.grainHarvest, p.foundryRevenue, p.shipyardRevenue)
  }

  /** The six draws of a year's revenue, in the order they are made. */
  datatype Draws = Draws(market1: int, market2: int, mill: int, foundry: int, customs1: int, customs2: int)

  /** The draws a stream yields from raw value `at` on. */
  function DrawsFrom(source: nat -> int, at: nat): Draws {
    Draws(Pick(source(at), 35), Pick(source(at + 1), 35), Pick(source(at + 2), 250),
          Pick(source(at + 3), 150), Pick(source(at + 4), 40), Pick(source(at + 5), 40))
  }

  /** The eight revenue fields. */
  datatype Revenues = Revenues(
    marketplace: int, grainMill: int, foundry: int, shipyard: int,
    soldier: int, customs: int, sales: int, income: int)
  {
    /** What the treasury receives. */
    function Total(): int {
      customs + sales + income + marketplace + grainMill + foundry + shipyard + soldier
    }
  }

  /** The divisors the revenue formulas use are not zero. */
  predicate Divisible(h: Holdings) {
    h.salesTax + 1 != 0 && MillDivisor(h.incomeTax, h.salesTax) != 0
  }

  /**
   * A year's revenues when the foundry and shipyard revenue are `foundry`
   * and `shipyard`: the other six by their formulas, the sales tax taken on
   * the four industries' revenue.
   */
  function RevenuesWith(h: Holdings, d: Draws, foundry: int, shipyard: int, pow: (int, Exponent) -> int): Revenues
    requires Divisible(h)
  {
    var marketplace := MarketplaceRevenue(h.marketplaces, h.merchants, h.salesTax, d.market1, d.market2, pow);
    var grainMill := GrainMillRevenue(h.mills, h.harvest, d.mill, h.incomeTax, h.salesTax, pow);
    var volume := TradeVolume(h.merchants, marketplace, grainMill, foundry, shipyard);
    Revenues(
      marketplace, grainMill, foundry, shipyard,
      -SOLDIER_UPKEEP * h.soldiers,
      CustomsRevenue(h.customsTax, h.immigrated, d.customs1, d.customs2),
      SalesTaxRevenue(h.salesTax, h.nobles, h.serfs, volume, pow),
      IncomeTaxRevenue(h.incomeTax, IncomeBase(h.serfs, h.nobles, h.merchants, h.marketplaces,
                                               h.mills, h.foundries, h.shipyards), pow))
  }

  /** The revenues as the source computes them: foundry and shipyard revenue stay as on record. */
  function RevenuesAsWritten(h: Holdings, d: Draws, pow: (int, Exponent) -> int): (r: Revenues)
    requires Divisible(h)
    ensures r.foundry == h.foundryRevenue && r.shipyard == h.shipyardRevenue
  {
    RevenuesWith(h, d, h.foundryRevenue, h.shipyardRevenue, pow)
  }

  /** The revenues with this year's foundry and shipyard earnings counted. */
  function RevenuesStoringIndustry(h: Holdings, d: Draws, weather: int, pow: (int, Exponent) -> int): (r: Revenues)
    requires Divisible(h)
    ensures r.foundry == FoundryEarnings(h.foundries, h.soldiers, d.foundry, pow)
    ensures r.shipyard == ShipyardEarnings(h.shipyards, h.merchants, h.marketplaces, h.foundries, weather, pow)
  {
    RevenuesWith(h, d, FoundryEarnings(h.foundries, h.soldiers, d.foundry, pow),
                 ShipyardEarnings(h.shipyards, h.merchants, h.marketplaces, h.foundries, weather, pow), pow)
  }

  /**
   * With non-negative holdings and damping, every revenue but the army's
   * upkeep is non-negative, the upkeep is 8 per soldier, and a source with
   * no buildings or no tax brings in nothing.
   */
  lemma RevenuesBounds(h: Holdings, d: Draws, foundry: int, shipyard: int, pow: (int, Exponent) -> int)
    requires Damping(pow) && Divisible(h)
    requires h.serfs >= 0 && h.nobles >= 0 && h.merchants >= 0 && h.soldiers >= 0 && h.immigrated >= 0
    requires h.customsTax >= 0 && h.salesTax >= 0 && h.incomeTax >= 0
    requires h.marketplaces >= 0 && h.mills >= 0 && h.foundries >= 0 && h.shipyards >= 0 && h.harvest >= 0
    requires foundry >= 0 && shipyard >= 0
    requires InRange(d.market1, 35) && InRange(d.market2, 35) && InRange(d.mill, 250)
    requires InRange(d.customs1, 40) && InRange(d.customs2, 40)
    ensures var r := RevenuesWith(h, d, foundry, shipyard, pow);
      && r.marketplace >= 0 && r.grainMill >= 0 && r.customs >= 0 && r.sales >= 0 && r.income >= 0
      && r.soldier == -SOLDIER_UPKEEP * h.soldiers
      && (h.marketplaces == 0 ==> r.marketplace == 0)
      && (h.mills == 0 ==> r.grainMill == 0)
      && (h.customsTax == 0 || h.immigrated == 0 ==> r.customs == 0)
      && (h.salesTax == 0 ==> r.sales == 0)
      && (h.incomeTax == 0 ==> r.income == 0)
  {
    var r := RevenuesWith(h, d, foundry, shipyard, pow);
    MarketplaceBounds(h.marketplaces, h.merchants, h.salesTax, d.market1, d.market2, pow);
    GrainMillBounds(h.mills, h.harvest, d.mill, h.incomeTax, h.salesTax, pow);
    CustomsBounds(h.customsTax, h.immigrated, d.customs1, d.customs2);
    assert CDiv(18 * h.merchants, 10) >= 0;
    SalesTaxBounds(h.salesTax, h.nobles, h.serfs,
                   TradeVolume(h.merchants, r.marketplace, r.grainMill, foundry, shipyard), pow);
    var base := IncomeBase(h.serfs, h.nobles, h.merchants, h.marketplaces, h.mills, h.foundries, h.shipyards);
    assert CDiv(13 * h.serfs, 10) >= 0;
    IncomeTaxBounds(h.incomeTax, base, pow);
  }

  /** The year's six draws, in the order `ComputeRevenues` makes them. */
  method DrawRevenues(dice: Dice) returns (d: Draws)
    modifies dice
    ensures dice.used == old(dice.used) + 6
    ensures d == DrawsFrom(dice.source, old(dice.used))
  {
    var market1 := dice.Range(35);
    var market2 := dice.Range(35);
    var mill := dice.Range(250);
    var foundry := dice.Range(150);
    var customs1 := dice.Range(40);
    var customs2 := dice.Range(40);
    d := Draws(market1, market2, mill, foundry, customs1, customs2);
  }

  /**
   * `ComputeRevenues` as the source has it: the six draws, the revenue
   * fields written, and their sum paid into the treasury. The foundry and
   * shipyard earnings are computed but never stored, so those two fields,
   * and what the sales tax and the treasury take from them, stay as on
   * record.
   */
  method ComputeRevenues(p: Player, weather: int, pow: (int, Exponent) -> int, dice: Dice)
    requires Divisible(HoldingsOf(p))
    modifies p`marketplaceRevenue, p`grainMillRevenue, p`soldierRevenue, p`customsTaxRevenue,
             p`salesTaxRevenue, p`incomeTaxRevenue, p`treasury, dice
    ensures dice.used == old(dice.used) + 6
    ensures var r := RevenuesAsWritten(old(HoldingsOf(p)), DrawsFrom(dice.source, old(dice.used)), pow);
      && p.marketplaceRevenue == r.marketplace && p.grainMillRevenue == r.grainMill
      && p.foundryRevenue == old(p.foundryRevenue) && p.shipyardRevenue == old(p.shipyardRevenue)
      && p.soldierRevenue == r.soldier && p.customsTaxRevenue == r.customs
      && p.salesTaxRevenue == r.sales && p.incomeTaxRevenue == r.income
      && p.treasury == old(p.treasury) + r.Total()
  {
    var h := HoldingsOf(p);
    var d := DrawRevenues(dice);
    var r := RevenuesAsWritten(h, d, pow);
    // This year's foundry and shipyard earnings would be
    // FoundryEarnings(h.foundries, h.soldiers, d.foundry, pow) and
    // ShipyardEarnings(h.shipyards, h.merchants, h.marketplaces, h.foundries, weather, pow);
    // neither reaches its field.
    p.marketplaceRevenue := r.marketplace;
    p.grainMillRevenue := r.grainMill;
    p.soldierRevenue := r.soldier;
    p.customsTaxRevenue := r.customs;
    p.salesTaxRevenue := r.sales;
    p.incomeTaxRevenue := r.income;
    p.treasury := p.treasury + r.Total();
  }

  /**
   * `ComputeRevenues` with the foundry and shipyard earnings stored in their
   * fields before the sales tax and the treasury use them.
   */
  method ComputeRevenuesStoringIndustry(p: Player, weather: int, pow: (int, Exponent) -> int, dice: Dice)
    requires Divisible(HoldingsOf(p))
    modifies p`marketplaceRevenue, p`grainMillRevenue, p`foundryRevenue, p`shipyardRevenue,
             p`soldierRevenue, p`customsTaxRevenue, p`salesTaxRevenue, p`incomeTaxRevenue, p`treasury, dice
    ensures dice.used == old(dice.used) + 6
    ensures var r := RevenuesStoringIndustry(old(HoldingsOf(p)), DrawsFrom(dice.source, old(dice.used)), weather, pow);
      && p.marketplaceRevenue == r.marketplace && p.grainMillRevenue == r.grainMill
      && p.foundryRevenue == r.foundry && p.shipyardRevenue == r.shipyard
      && p.soldierRevenue == r.soldier && p.customsTaxRevenue == r.customs
      && p.salesTaxRevenue == r.sales && p.incomeTaxRevenue == r.income
      && p.treasury == old(p.treasury) + r.Total()
  {
    var h := HoldingsOf(p);
    var d := DrawRevenues(dice);
    var r := RevenuesStoringIndustry(h, d, weather, pow);
    p.marketplaceRevenue := r.marketplace;
    p.grainMillRevenue := r.grainMill;
    p.foundryRevenue := r.foundry;
    p.shipyardRevenue := r.shipyard;
    p.soldierRevenue := r.soldier;
    p.customsTaxRevenue := r.customs;
    p.salesTaxRevenue := r.sales;
    p.incomeTaxRevenue := r.income;
    p.treasury := p.treasury + r.Total();
  }

  /**
   * As written, a player with working foundries and no foundry revenue on
   * record keeps a foundry revenue of 0 year after year, although the
   * foundries earn at least one unit each year; with the earnings stored,
   * the revenue is that positive amount.
   */
  lemma FoundryEarningsDiscarded(h: Holdings, d: Draws, weather: int, pow: (int, Exponent) -> int)
    requires Damping(pow) && Divisible(h)
    requires h.foundries >= 1 && h.soldiers >= 0 && h.foundryRevenue == 0 && InRange(d.foundry, 150)
    ensures RevenuesAsWritten(h, d, pow).foundry == 0
    ensures RevenuesStoringIndustry(h, d, weather, pow).foundry >= 1
  {
    FoundryEarns(h.foundries, h.soldiers, d.foundry, pow);
  }

  /**
   * The two readings agree once the record already holds this year's
   * foundry and shipyard earnings: storing them changes nothing else.
   */
  lemma StoringIndustryAgrees(h: Holdings, d: Draws, weather: int, pow: (int, Exponent) -> int)
    requires Divisible(h)
    ensures var stored := h.(foundryRevenue := FoundryEarnings(h.foundries, h.soldiers, d.foundry, pow),
                             shipyardRevenue := ShipyardEarnings(h.shipyards, h.merchants, h.marketplaces,
                                                                 h.foundries, weather, pow));
      RevenuesAsWritten(stored, d, pow) == RevenuesStoringIndustry(h, d, weather, pow)
  {
  }
}
