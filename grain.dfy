/**
 * The computing part of the grain screen (grain.c): the rats' share of the
 * reserve, the harvest, and the three trades a ruler may make on that
 * screen -- buying grain from another country's listing, putting grain on
 * the market, and selling land to the barbarians.
 */
module Grain {
  import opened CMath
  import opened Random
  import opened Empire

  /** The reserve left after rats eat `pct` percent of `grain`, truncating the bushels eaten. */
  function AfterRats(grain: int, pct: int): (left: int)
    ensures grain >= 0 && 0 <= pct <= 100 ==> 0 <= left <= grain
    ensures grain >= 0 && 0 <= pct ==> 100 * left <= (100 - pct) * grain + 99
  {
    grain - CDiv(grain * pct, 100)
  }

  /** Rats eat at most 30 percent: at least 70 percent of a non-negative reserve survives. */
  lemma RatsLeaveSeventyPercent(grain: int, pct: int)
    requires grain >= 0 && 1 <= pct <= 30
    ensures 70 * grain <= 100 * AfterRats(grain, pct) <= 99 * grain + 99
    ensures AfterRats(grain, pct) >= 0
  {
    var eaten := CDiv(grain * pct, 100);
    assert 100 * eaten <= grain * pct;
    MulLe(grain, pct, 30);
    MulLe(grain, 1, pct);
  }

  /**
   * `(int) (weather * land * 0.72 + draw - 500 * foundries)`, floored at 0:
   * 72 hundredths of a bushel per acre and unit of weather, plus the draw,
   * less 500 bushels for each foundry, with the fraction dropped toward zero.
   */
  function Harvest(weather: int, land: int, draw: int, foundries: int): (h: int)
    ensures h >= 0
    ensures h > 0 ==> 100 * h <= 72 * weather * land + 100 * (draw - 500 * foundries) < 100 * (h + 1)
    ensures h == 0 <==> 72 * weather * land + 100 * (draw - 500 * foundries) < 100
  {
    var raw := CDiv(72 * weather * land + 100 * (draw - 500 * foundries), 100);
    if raw < 0 then 0 else raw
  }

  /** More land never yields a smaller harvest in fair weather. */
  lemma HarvestGrowsWithLand(weather: nat, land: int, moreLand: int, draw: int, foundries: int)
    requires land <= moreLand
    ensures Harvest(weather, land, draw, foundries) <= Harvest(weather, moreLand, draw, foundries)
  {
    MulLe(72 * weather, land, moreLand);
    CDivMonotone(72 * weather * land + 100 * (draw - 500 * foundries),
                 72 * weather * moreLand + 100 * (draw - 500 * foundries), 100);
  }

  /**
   * `GrainScreen` before its trading loop: rats eat part of the reserve, then
   * the year's harvest for `weather` is added to it.
   */
  method GrainScreen(p: Player, weather: int, dice: Dice)
    modifies p`ratPct, p`grain, p`grainHarvest, dice
    ensures dice.used == old(dice.used) + 2
    ensures p.ratPct == Pick(dice.source(old(dice.used)), 30) && 1 <= p.ratPct <= 30
    ensures p.grainHarvest == Harvest(weather, p.land, Pick(dice.source(old(dice.used) + 1), 500), p.foundryCount)
    ensures p.grain == AfterRats(old(p.grain), p.ratPct) + p.grainHarvest
    ensures old(p.grain) >= 0 ==> 70 * old(p.grain) + 100 * p.grainHarvest <= 100 * p.grain
  {
    p.ratPct := dice.Range(30);
    if p.grain >= 0 {
      RatsLeaveSeventyPercent(p.grain, p.ratPct);
    }
    p.grain := AfterRats(p.grain, p.ratPct);

    var draw := dice.Range(500);
    p.grainHarvest := Harvest(weather, p.land, draw, p.foundryCount);
    p.grain := p.grain + p.grainHarvest;
  }

  /** How a purchase request ends; the re-prompting cases of the screen are the rejections. */
  datatype Purchase =
    | NoSuchCountry          // seller number outside 0..COUNTRY_COUNT: asked again
    | NoneForSale            // no seller, a dead one, or an empty listing
    | OwnListing             // the buyer's own listing
    | MoreThanListed         // more bushels than listed: asked again
    | Agreed(seller: nat, bushels: int)

  /** The players `BuyGrain` may look at. */
  function Market(players: seq<Player>): set<Player> {
    set i | 0 <= i < |players| :: players[i]
  }

  /**
   * The checks `BuyGrain` makes, in order, on `seller` (1-based, 0 for none)
   * and `bushels`. The agreed case names the seller's index; no grain or money
   * moves in any case.
   */
  function BuyGrain(players: seq<Player>, buyer: Player, seller: int, bushels: int): (r: Purchase)
    requires |players| == COUNTRY_COUNT
    reads Market(players)
    ensures r == NoSuchCountry <==> !(0 <= seller <= COUNTRY_COUNT)
    ensures r == NoneForSale <==>
      0 <= seller <= COUNTRY_COUNT &&
      (seller == 0 || players[seller - 1].dead || players[seller - 1].grainForSale == 0)
    ensures r == OwnListing ==> 1 <= seller <= COUNTRY_COUNT && players[seller - 1] == buyer
    ensures r == MoreThanListed ==>
      1 <= seller <= COUNTRY_COUNT && players[seller - 1] != buyer && bushels > players[seller - 1].grainForSale
    ensures r.Agreed? <==>
      && 1 <= seller <= COUNTRY_COUNT
      && !players[seller - 1].dead
      && players[seller - 1].grainForSale != 0
      && players[seller - 1] != buyer
      && bushels <= players[seller - 1].grainForSale
    ensures r.Agreed? ==> r.seller == seller - 1 && r.bushels == bushels
  {
    if !(0 <= seller <= COUNTRY_COUNT) then NoSuchCountry
    else if seller == 0 || players[seller - 1].dead || players[seller - 1].grainForSale == 0 then NoneForSale
    else if players[seller - 1] == buyer then OwnListing
    else if bushels > players[seller - 1].grainForSale then MoreThanListed
    else Agreed(seller - 1, bushels)
  }

  /** A ruler who has listed grain is told so when trying to buy it back, whatever the amount. */
  lemma NoPurchaseFromSelf(players: seq<Player>, buyer: Player, i: nat, bushels: int)
    requires |players| == COUNTRY_COUNT && i < COUNTRY_COUNT
    requires players[i] == buyer && !buyer.dead && buyer.grainForSale != 0
    ensures BuyGrain(players, buyer, i + 1, bushels) == OwnListing
  {
  }

  /**
   * The price of a listing of `oldQty` bushels at `oldPrice` after `qty`
   * bushels at `price` are added: the average price per bushel.
   */
  function MergedPrice(oldPrice: real, oldQty: int, price: real, qty: int): (m: real)
    requires oldQty + qty != 0
    ensures m * (oldQty + qty) as real == oldPrice * oldQty as real + price * qty as real
  {
    (oldPrice * oldQty as real + price * qty as real) / (oldQty + qty) as real
  }

  /**
   * Adding to an empty listing sets its price to the offer; adding to a
   * listing that has bushels puts the price between the old one and the offer.
   */
  lemma MergedPriceBetween(oldPrice: real, oldQty: int, price: real, qty: int)
    requires oldQty >= 0 && qty >= 0 && oldQty + qty > 0
    ensures oldQty == 0 ==> MergedPrice(oldPrice, oldQty, price, qty) == price
    ensures oldPrice <= price ==> oldPrice <= MergedPrice(oldPrice, oldQty, price, qty) <= price
    ensures price <= oldPrice ==> price <= MergedPrice(oldPrice, oldQty, price, qty) <= oldPrice
  {
    var m := MergedPrice(oldPrice, oldQty, price, qty);
    var n := (oldQty + qty) as real;
    var a := oldQty as real;
    var b := qty as real;
    assert m * n == oldPrice * a + price * b;
    if oldPrice <= price {
      WeightedBetween(oldPrice, price, a, b);
      Cancel(oldPrice, m, n);
      Cancel(m, price, n);
    } else {
      WeightedBetween(price, oldPrice, b, a);
      assert b + a == n;
      Cancel(price, m, n);
      Cancel(m, oldPrice, n);
    }
    if oldQty == 0 {
      assert m * n == price * n;
      Cancel(m, price, n);
      Cancel(price, m, n);
    }
  }

  /** A weighted sum of two values lies between the total weight times the smaller and times the larger. */
  lemma WeightedBetween(x: real, y: real, a: real, b: real)
    requires x <= y && a >= 0.0 && b >= 0.0
    ensures x * (a + b) <= x * a + y * b <= y * (a + b)
  {
    Scale(x, y, a);
    Scale(x, y, b);
    assert x * (a + b) == x * a + x * b;
    assert y * (a + b) == y * a + y * b;
  }

  lemma Scale(x: real, y: real, c: real)
    requires x <= y && c >= 0.0
    ensures x * c <= y * c
  {
  }

  lemma Cancel(x: real, y: real, c: real)
    requires x * c <= y * c && c > 0.0
    ensures x <= y
  {
  }

  /** How a sale listing ends; each rejection is a re-prompt on the screen. */
  datatype Listing = MoreThanHeld | TooDear | Listed

  /** The highest price per bushel a ruler may ask. */
  const MAX_GRAIN_PRICE: real := 15.0

  /**
   * `SellGrain`: put `grainToSell` bushels on the market at `price`. The
   * amount may be at most the reserve (a negative amount passes), the price
   * at most 15; the listing's price becomes the average over all its bushels.
   */
  method SellGrain(p: Player, grainToSell: int, price: real) returns (r: Listing)
    modifies p`grainPrice, p`grainForSale, p`grain
    ensures r == MoreThanHeld <==> grainToSell > old(p.grain)
    ensures r == TooDear <==> grainToSell <= old(p.grain) && price > MAX_GRAIN_PRICE
    ensures r == Listed <==> grainToSell <= old(p.grain) && price <= MAX_GRAIN_PRICE
    ensures r != Listed ==> p.grain == old(p.grain) && p.grainForSale == old(p.grainForSale)
                            && p.grainPrice == old(p.grainPrice)
    ensures r == Listed ==> p.grain == old(p.grain) - grainToSell
                            && p.grainForSale == old(p.grainForSale) + grainToSell
    ensures r == Listed && p.grainForSale != 0 ==>
      p.grainPrice == MergedPrice(old(p.grainPrice), old(p.grainForSale), price, grainToSell)
    ensures r == Listed && p.grainForSale == 0 ==> p.grainPrice == old(p.grainPrice)
    ensures p.grain + p.grainForSale == old(p.grain + p.grainForSale)
  {
    if grainToSell > p.grain {
      return MoreThanHeld;
    }
    if price > MAX_GRAIN_PRICE {
      return TooDear;
    }
    if p.grainForSale + grainToSell != 0 {
      p.grainPrice := MergedPrice(p.grainPrice, p.grainForSale, price, grainToSell);
    }
    p.grainForSale := p.grainForSale + grainToSell;
    p.grain := p.grain - grainToSell;
    r := Listed;
  }

  /** `0 <= acres` and `(float) acres <= 0.95 * (float) land`: the barbarians buy at most 95% of the land. */
  predicate LandSaleAllowed(acres: int, land: int) {
    0 <= acres && acres as real <= 0.95 * land as real
  }

  /** The 95% limit in whole numbers: twenty times the acres sold at most nineteen times the land. */
  lemma LandSaleAllowedInIntegers(acres: int, land: int)
    ensures LandSaleAllowed(acres, land) <==> 0 <= acres && 20 * acres <= 19 * land
  {
    assert 0.95 * land as real == (19 * land) as real / 20.0;
  }

  /** Of 100 acres, 95 may be sold and 96 may not. */
  lemma LandSaleBoundary()
    ensures LandSaleAllowed(95, 100) && !LandSaleAllowed(96, 100)
    ensures !LandSaleAllowed(-1, 100) && LandSaleAllowed(0, 0) && !LandSaleAllowed(1, 1)
  {
  }

  /** Barbarians pay this much per acre. */
  const PRICE_PER_ACRE: int := 2

  /**
   * `SellLand`: sell `acres` to the barbarians at 2 per acre. A negative
   * amount or more than 95% of the land is refused (and asked again).
   */
  method SellLand(p: Player, acres: int) returns (sold: bool)
    modifies p`treasury, p`land
    ensures sold <==> LandSaleAllowed(acres, old(p.land))
    ensures sold ==> p.treasury == old(p.treasury) + PRICE_PER_ACRE * acres && p.land == old(p.land) - acres
    ensures !sold ==> p.treasury == old(p.treasury) && p.land == old(p.land)
    ensures p.treasury + PRICE_PER_ACRE * p.land == old(p.treasury + PRICE_PER_ACRE * p.land)
    ensures sold ==> 0 <= old(p.land) <= 20 * p.land
  {
    LandSaleAllowedInIntegers(acres, p.land);
    if !LandSaleAllowed(acres, p.land) {
      return false;
    }
    p.treasury := p.treasury + PRICE_PER_ACRE * acres;
    p.land := p.land - acres;
    sold := true;
  }
}
