# TRS-80 Empire: the yearly screens, modelled in Dafny

This project models the part of the C port of the TRS-80 game *Empire*
that changes a ruler's state each year. There are four screens, one module
each:

- **Attack** (`attack.dfy`, attack.c). The ruler chooses whom to attack and
  sends soldiers from the standing army. The two forces fight round by
  round, and one side loses soldiers each round, until one side has none
  left. A beaten attacker still keeps a share of the land it seized. The
  survivors and the land are then written back to both players.
- **Population** (`population.dfy`, population.c). The year's births and
  deaths from disease, malnutrition and starvation. Immigration depends on
  how well the people were fed and is split into serfs, merchants and
  nobles. A hungry army loses soldiers to starvation and desertion. The
  army's efficiency for the next year is set from its ration.
- **Grain** (`grain.dfy`, grain.c). Rats eat part of the reserve and the
  harvest is added. The ruler can then buy grain listed by another
  country, list grain for sale at an averaged price, and sell land to the
  barbarians.
- **Investments** (`investments.dfy`, investments.c). The year's revenue
  from marketplaces, grain mills, foundries and shipyards, the army's
  upkeep, and the customs, sales and income taxes. The sum is paid into
  the treasury.

Shared pieces:

- `empire.dfy` holds the `Player` record (empire.h). It is a class because
  every screen updates it in place.
- `cmath.dfy` holds C's truncating integer division (`CDiv`) and
  `(int) sqrt` (`ISqrt`).
- `random.dfy` holds the random draws.
  - `RandRange` is only declared in the source. Every caller relies on one
    thing: the result is in [1, n] for n > 0, and 0 otherwise.
  - A `Dice` object replays an arbitrary stream of raw values through that
    range. Any sequence of in-range draws is therefore possible, and a
    fixed stream makes a whole year reproducible.
  - `rand_range` and `rand() % k + 1` are modelled by the same `Range`.

Each C function that writes a `Player` becomes a module-level method that
takes the `Player` objects it works on. Its `modifies` clause names exactly
the fields the C code writes (for the attack screen, the soldier count and
land of the players in the list), so "nothing else changes" is part of
every such contract. Checks that write nothing, such as `BuyGrain`, become
functions. Typed input becomes a
parameter. Input the screen would ask for again becomes a rejection result
that changes nothing.

Float expressions are read as exact rationals. Truncation toward zero is
written out:

| C expression | model |
|---|---|
| `population / 9.5` | `CDiv(2 * population, 19)` |
| `feed > 1.5 * need` | `2 * feed > 3 * need` |
| `weather * land * 0.72` | `72 * weather * land` over 100 |
| `5.8 * x`, `1.8 * x`, `1.3 * x` | `CDiv(58 * x, 10)`, `CDiv(18 * x, 10)`, `CDiv(13 * x, 10)` |
| `0.95 * land` | exact `real` arithmetic; the lemma turns it into `20 * acres <= 19 * land` |

The listed grain price is a `real`. C's `pow` is a parameter
`pow: (int, Exponent) -> int` standing for `(int) pow((double) x, e)`. The
lemmas about it assume only `Damping`, which holds for exponents below
one:

- `pow(0, e) == 0`;
- `0 <= pow(x, e) <= x` for `x >= 0`;
- `pow(x, e) >= 1` for `x >= 1`.

The model follows the code wherever the game's wider design describes
more. The C code has none of the following:

- defence by serfs, overrunning a country, or sacking;
- a treaty period (the check exists but is switched off; see "## Left out");
- investment purchases;
- a transfer of grain when buying;
- a guarantee that soldier counts stay non-negative. A starving army of 0
  soldiers ends at -1, and `Population.EmptyArmyStarves` shows it.

## Model

| member | source | states |
|---|---|---|
| CMath.CDiv | attack.c:197 | C's `/`: for a positive divisor and non-negative dividend it is Euclidean division; the quotient's sign is the product of the operands' signs; its magnitude is the largest multiple of the divisor not exceeding the dividend's |
| CMath.CDivMonotone | investments.c:160 | truncating division by a positive divisor is monotone in the dividend |
| CMath.ISqrt | population.c:92 | `(int) sqrt(n)` is the root r with r*r <= n < (r+1)*(r+1) |
| Random.Pick | empire.h:219 | a draw of `RandRange(n)` lies in [1, n] when n > 0 and is 0 otherwise |
| Random.Dice.Range | empire.h:219 | one draw: consumes one raw value of the stream and returns its in-range pick |
| Attack.KillCount | attack.c:197 | soldiers killed in a round: at least one, one more per full 15 attackers |
| Attack.Round | attack.c:193-215 | a lost round takes exactly the kill count from the attacker (floored at 0) and leaves defenders and land alone; a won round takes it from the defender (floored at 0), leaves the attacker alone, and moves the land by gain minus loss, never below 0 |
| Attack.Play | attack.c:177-220 | the state after the loop has played the given rounds in order from the start, one `Round` each |
| Attack.DrawsFit | attack.c:197-209 | the draws one pass of the loop can make from a state: both efficiency rolls in range, then gain from 26 times the kill count and loss from the kill count plus 5 only when the attacker wins |
| Attack.RoundProgress | attack.c:197-219 | a round after which the battle goes on strictly lowers the soldiers left on both sides |
| Attack.PlayBounds | attack.c:177-220 | over any rounds the attackers stay in [0, sent], the land seized stays >= 0, and a non-negative defender count never grows |
| Attack.Descent | attack.c:177-220 | while the battle goes on, the soldiers left fall by at least one per round |
| Attack.BattleLength | attack.c:177-220 | for every send the corrected check admits (0 or more soldiers) the `while (1)` loop ends: a battle that stops at the first round leaving a side empty lasts at most sent + defenders + 1 rounds |
| Attack.Consolation | attack.c:237-248 | a beaten attacker keeps the land seized divided by a draw in [1, 3] (positive, at most what was seized) when more than 2 acres were seized, and none otherwise |
| Attack.SendAcceptedAsWritten | attack.c:155 | the check as written: a send is refused only when it exceeds the standing army |
| Attack.SendAccepted | attack.c:155 | the corrected check: a send between none and the whole standing army |
| Attack.NegativeSendStandsStill | attack.c:155-220 | a send of -15 to -29 passes the check as written, has a kill count of 0, and against a defender at efficiency 1 every round the dice can produce is won by the attacker and leaves the battle unchanged |
| Attack.NegativeSendNeverEnds | attack.c:155-220 | from such a send, any number of rounds the dice can produce leaves the battle where it started, with both sides standing: the loop as written need not end |
| Attack.NegativeSendRaisesArmy | attack.c:155-168 | sending -100 soldiers passes the check as written, and an army of 0 ends with 100 soldiers after a first lost round; a won round adds 5 to the defender |
| Attack.PlayRound | attack.c:193-215 | one pass of the loop body: the draws it makes fit the state (both rolls, then gain and loss only in a won round) and the new state is `Round` of them |
| Attack.Battle | attack.c:175-220 | for every send the corrected check admits, the round loop ends and returns the state after playing its recorded rounds, one side is empty, no earlier round ended the battle, and every round's draws are in range |
| Attack.AttackPlayer | attack.c:122-258 | the send is accepted iff 0 <= sent <= standing army, a rejection changes nothing; otherwise the battle's survivors and (on defeat) the consolation are written back, the sent soldiers leave the army, land moves from target to attacker with the total conserved, the attacker's army never grows and a non-negative target army never grows; the land seized is never negative, so the attacker never loses land, and one side has no survivors |
| Attack.ChooseTarget | attack.c:68-93 | 0 ends the phase, 1 selects the barbarians, 2..7 select player slot number - 2 unless it is the attacker's own (then think again), anything else is ignored |
| Attack.AttackScreenTurn | attack.c:48-95 | only another player's slot leads to a battle, against exactly that player; any other choice changes nothing; only soldier counts and land can change; a refused send changes nothing; an accepted one plays a battle of in-range rounds that stops at the first one leaving a side empty, the outcome is its survivors and the land seized (or the consolation on defeat, never negative), and these are written back as `AttackPlayer` does; the two players' land is conserved, the attacker's army never grows, a non-negative target army never grows and stays >= 0, and the other players keep their soldiers and land |
| Population.BirthRange | population.c:68 | the births range `(int) (population / 9.5)` is the largest n with 19 n <= 2 population |
| Population.Overfed | population.c:88-89 | people are overfed when their feed exceeds one and a half times their need, read exactly as 2 feed > 3 need |
| Population.Efficiency | population.c:123-129 | army efficiency is in [5, 15]: ten times the ration's share of the need when inside, 5 or 15 exactly when the share is at or beyond either bound |
| Population.EfficiencyMonotone | population.c:123-129 | more feed never lowers efficiency, and a full ration gives at least 10 |
| Population.ArmyAttrition | population.c:112-121 | starvation and desertion never add soldiers, and leave an army that had a soldier at >= 0 |
| Population.EmptyArmyStarves | population.c:115-120 | a starving army of 0 soldiers still loses one and ends at -1 |
| Population.DeathsFit | population.c:67-85 | births from the births range and disease from population/22; under half rations malnutrition from population/12 + 1 and starvation from population/16 + 1; under short rations malnutrition from population/15 + 1 and no starvation; otherwise neither |
| Population.ImmigrationFits | population.c:87-110 | not overfed: no customs draw and no immigrants; overfed: a customs draw from `(int) (1.5 customsTax)`, then immigrants from twice the root of the surplus less that draw, plus one, when that is positive, and none otherwise; merchants from immigrated/5 and nobles from immigrated/25 |
| Population.ArmyLossesFit | population.c:112-121 | under half rations, starvation from soldiers/2 + 1 and then desertion from a fifth of those left; otherwise no losses |
| Population.YearFits | population.c:62-121 | a year's draws fit the deaths, immigration and army-loss rules together |
| Population.DrawDeaths | population.c:67-85 | births and disease are in range; malnutrition and starvation only under half rations, malnutrition alone under short rations, neither on a full ration |
| Population.DrawImmigration | population.c:87-110 | no draw and no immigrants unless overfed (feed > 1.5 need); otherwise a customs draw from `(int) (1.5 customsTax)`, and immigrants drawn from twice the root of the surplus less that draw, plus one, when that is positive, none otherwise; merchants and nobles are draws from immigrated/5 and immigrated/25, 0 when those are 0 |
| Population.ImmigrationBounds | population.c:87-110 | immigrants are >= 0 and at most 2 sqrt(surplus) + 1; merchants and nobles are between 0 and a fifth and a twenty-fifth of them; overfed people with no customs tax and a surplus always draw some; with a customs tax at most 2 sqrt(surplus) - 1 arrive, or none |
| Population.StarveArmy | population.c:112-121 | soldiers fall by exactly the starved and deserted, only under half rations, never rise, and stay >= 0 from >= 1 |
| Population.SetArmyEfficiency | population.c:123-129 | the army's efficiency becomes the clamped ration `Efficiency(feed, need)`, and no other field is written |
| Population.UpdatePopulation | population.c:163-167 | the population changes by exactly the gain, merchants and nobles by exactly their immigrants, the serfs take the rest |
| Population.DrawYear | population.c:62-121 | the year's draws in source order fit the deaths, immigration and army-loss rules for the population, rations and customs tax on record, and the army falls by exactly the starved and deserted |
| Population.YearBounds | population.c:87-121 | under those rules the army never grows, an army that had a soldier is not left negative, and the immigrants and the immigrant merchants and nobles are never negative |
| Population.PopulationScreen | population.c:33-172 | one year: the draws fit the rules for the population, rations, customs tax and army at the start of the year; the army falls by exactly its losses; the population changes by exactly born + immigrated - deaths, merchants and nobles by their immigrants; efficiency is the clamped ration; land, grain, treasury and the other fields are not written |
| Grain.AfterRats | grain.c:54 | a non-negative reserve stays in [0, reserve] after rats, and loses at least the percentage eaten (less the truncated fraction) |
| Grain.RatsLeaveSeventyPercent | grain.c:53-54 | with rats eating 1..30 percent, at least 70 percent of the reserve survives and at most 99 percent plus rounding |
| Grain.Harvest | grain.c:57-61 | the harvest is >= 0; when positive it is the whole part of 0.72 weather land + draw - 500 foundries; it is 0 exactly when that is below 1 |
| Grain.HarvestGrowsWithLand | grain.c:57-61 | in non-negative weather more land never gives a smaller harvest |
| Grain.GrainScreen | grain.c:50-62 | two draws: the rat percentage in [1, 30] and the harvest draw; grain becomes the rat-eaten reserve plus the harvest, at least 70 percent of the old reserve plus the harvest |
| Grain.BuyGrain | grain.c:210-281 | the checks in order: seller number outside 0..6 is asked again; seller 0, dead or with an empty listing has none for sale; then the buyer's own listing; then more than listed; otherwise agreed with that seller and amount, with no state changed |
| Grain.NoPurchaseFromSelf | grain.c:247-254 | a ruler with a live listing cannot buy from it, whatever the amount |
| Grain.MergedPrice | grain.c:357-360 | the new listing price times the new quantity is the old listing's value plus the offer's value |
| Grain.MergedPriceBetween | grain.c:357-360 | listing on an empty market sets the price to the offer; otherwise the new price lies between the old price and the offer |
| Grain.SellGrain | grain.c:291-363 | listed iff amount <= reserve and price <= 15 (a negative amount passes); a rejection changes nothing; grain moves from reserve to listing with their sum unchanged and the price averaged |
| Grain.LandSaleAllowedInIntegers | grain.c:397-404 | selling is allowed iff 0 <= acres and 20 acres <= 19 land |
| Grain.LandSaleAllowed | grain.c:397-404 | the sale check as the source states it: no negative amount, and no more than 0.95 of the land, in exact reals |
| Grain.LandSaleBoundary | grain.c:397-404 | of 100 acres, 95 may be sold and 96 may not; negative amounts are refused |
| Grain.SellLand | grain.c:373-421 | sold iff the 95 percent rule allows it; the treasury gains 2 per acre and the land falls by the acres; treasury + 2 land is unchanged; at least 5 percent of the land is kept |
| Investments.MarketplaceBounds | investments.c:156-163 | no marketplace earns nothing; otherwise between 1 and the undamped yield at the highest draws |
| Investments.MarketplaceRevenue | investments.c:156-163 | `pow(count * (12 (merchants + r1 + r2) / (salesTax + 1) + 5), 0.9)` with truncating division |
| Investments.GrainMillBounds | investments.c:165-170 | no mill earns nothing; the revenue is at most the undamped yield, and one mill yields at most 5.8 (harvest + 250) / 150 |
| Investments.GrainMillRevenue | investments.c:165-170 | `pow(count * ((int) (5.8 (harvest + r)) / (20 incomeTax + 40 salesTax + 150)), 0.9)` |
| Investments.FoundryEarns | investments.c:172-175 | a working foundry with a non-negative army earns at least 1 |
| Investments.FoundryEarnings | investments.c:172-175 | `pow(count * (soldiers + r + 400), 0.9)` |
| Investments.ShipyardEarnings | investments.c:177-183 | `pow(count * (4 merchants + 9 marketplaces + 15 foundries) * weather, 0.9)` |
| Investments.CustomsBounds | investments.c:188-192 | no customs without a tax or without immigrants; otherwise between 0 and 80 percent of tax times immigrants |
| Investments.CustomsRevenue | investments.c:188-192 | `customsTax * immigrated * (r1 + r2) / 100` with truncating division |
| Investments.TradeVolume | investments.c:194-200 | `(int) (1.8 merchants) + 33 marketplace + 17 mill + 50 foundry + 70 shipyard` revenue |
| Investments.SalesTaxRevenue | investments.c:194-205 | `salesTax * (pow(volume, 0.85) + 5 nobles + serfs) / 100` |
| Investments.SalesTaxBounds | investments.c:194-205 | no sales tax brings in nothing; otherwise between 0 and the tax's share of the undamped trade volume, nobles and serfs |
| Investments.IncomeTaxBounds | investments.c:207-217 | no income tax brings in nothing; otherwise between 0 and the tax's share of the base |
| Investments.IncomeBase | investments.c:207-215 | `(int) (1.3 serfs) + 145 nobles + 39 merchants + 99 marketplaces + 99 mills + 425 foundries + 965 shipyards` |
| Investments.IncomeTaxRevenue | investments.c:207-217 | `pow(incomeTax * base / 100, 0.97)` |
| Investments.RevenuesWith | investments.c:156-217 | the eight revenues of a year for given foundry and shipyard revenue: marketplace and mill by their formulas, upkeep -8 per soldier, customs, and the sales tax on the four industries' revenue, and the income tax |
| Investments.RevenuesAsWritten | investments.c:147-228 | the year's revenues as the source computes them keep the foundry and shipyard revenue on record |
| Investments.RevenuesStoringIndustry | investments.c:172-183 | the corrected revenues take this year's foundry and shipyard earnings |
| Investments.RevenuesBounds | investments.c:156-217 | with non-negative holdings and in-range draws, every revenue but the upkeep is >= 0, the upkeep is -8 per soldier, and no marketplaces, no mills, no customs tax or no immigrants, no sales tax, no income tax each bring in nothing |
| Investments.DrawRevenues | investments.c:159-191 | six draws in source order: two from 35, one from 250, one from 150, two from 40 |
| Investments.ComputeRevenues | investments.c:147-228 | six draws; every written revenue field is the as-written revenue for the holdings at the start, the foundry and shipyard fields are not written, and the treasury grows by exactly the sum of the eight revenues |
| Investments.ComputeRevenuesStoringIndustry | investments.c:172-183 | the same with the foundry and shipyard earnings stored, so they count in the sales tax and the treasury |
| Investments.FoundryEarningsDiscarded | investments.c:172-175 | with working foundries, a non-negative army and a foundry revenue of 0 on record, the as-written revenue stays 0 although the corrected one is at least 1 |
| Investments.StoringIndustryAgrees | investments.c:172-228 | the two readings agree whenever the record already holds this year's foundry and shipyard earnings |

## Left out

- Screen drawing and prompting are left out. This covers `DrawAttackScreen`, `DrawGrainScreen`, `DisplayTaxRevenues`, `DisplayInvestments`, the `printw`/`getnstr`/`sleep` calls and the `TradeGrainAndLand` menu loop. Typed values are parameters, and a re-prompt is a rejection result.
- The bodies of `RandRange`, `rand_range` and `rand()` are not part of this model. Only their range is used.
- `AttackBarbarians` has an empty body (attack.c:110-112). Choosing it does nothing in the model.
- The year-3 treaty check sits behind `if (0)` (attack.c:134-137), so it is never reached and is not modelled.
- The `Battle` record of empire.h is not used by these four files.
- `InvestmentsScreen` reads a tax choice and does nothing with it (investments.c:57-60). Only `ComputeRevenues` is modelled.
- empire.c (`main` and the start screen) is not part of this model, and the loop that runs the screens year by year is not in the files modelled. `weather` and `playerList` are parameters.
- `BuyGrain` reads `seller->defeated`, which the record does not have. It is modelled as the record's `dead` flag.
- `BuyGrain` accepts a purchase but moves no grain and no money, in the source as in the model.
- Binary floating-point rounding is not modelled. The literals 0.72, 0.95, 1.5, 1.8, 1.3, 5.8 and 9.5 are read as exact rationals, and the grain price is an exact `real`.
- Grain.SellGrain: when the listing would become exactly 0 bushels, the C code divides by zero and stores NaN or an infinity. The model keeps the old price instead.
- C `int` overflow is not modelled. All counts are unbounded integers.
- Investments.ComputeRevenues: `pow` is abstract. Only the `Damping` facts above are used, and the lemmas say nothing about negative bases, where C's `pow` gives NaN.
- Investments.ComputeRevenues and Investments.ComputeRevenuesStoringIndustry require `salesTax + 1` and `20 incomeTax + 40 salesTax + 150` to be non-zero, because the C code divides by both. The game keeps the rates as percentages (sales 0 to 20, income 0 to 35), so neither divisor is 0 in play. Setting the rates is not part of this model.
- Investments.ComputeRevenues makes its six draws first and then computes the revenues from the holdings at the start of the year. The C code interleaves the draws with the arithmetic, but the draw order is the same and no input is written before it is read, so the result is the same.
- Population.PopulationScreen requires `armyGrainNeed != 0`, because the C code divides by it. It also requires that overfed people are fed at least their need, so that the root of the surplus is taken of a non-negative number.
- The names, titles, countries and `level` of a player are display text and are not in the `Player` class.

## Findings

| source | as written | input that shows it | evidently intended | confidence | as-written member | corrected member |
|---|---|---|---|---|---|---|
| attack.c:155 | only `sent > soldierCount` is refused, so a negative number of soldiers passes | a ruler with 0 soldiers sends -100; the army becomes 100 before the battle, and losing the first round floors the force at 0 and ends the battle, so the ruler keeps 100 soldiers. A send of -15 to -29 has a kill count of 0: against a defender at efficiency 1 the attacker wins every round and nothing changes, so the battle loop never ends (Attack.NegativeSendNeverEnds) | 0 <= sent <= soldierCount | high, not executed | Attack.NegativeSendRaisesArmy | Attack.AttackPlayer |
| investments.c:173-183 | the foundry and shipyard earnings go to locals and are dropped, so the fields, the sales tax and the treasury keep the values already on record | a ruler with working foundries, a non-negative army and a foundry revenue of 0 on record: the foundries earn at least 1, and the revenue field stays 0 | the earnings are stored in `foundryRevenue` and `shipyardRevenue` like the marketplace and mill revenues | high, not executed | Investments.FoundryEarningsDiscarded | Investments.ComputeRevenuesStoringIndustry |
