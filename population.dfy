/**
 * The computing part of the population screen (population.c): one year of
 * births, deaths from disease, malnutrition and starvation, immigration
 * (split into serfs, merchants and nobles), army starvation and desertion,
 * and the army's fighting efficiency for the coming year.
 */
module Population {
  import opened CMath
  import opened Random
  import opened Empire

  /** The head counts one year's update draws: the locals of `PopulationScreen`. */
  datatype Demography = Demography(
    born: int,
    diedDisease: int,
    diedMalnutrition: int,
    diedStarvation: int,
    customsDraw: int,
    immigrated: int,
    merchantsImmigrated: int,
    noblesImmigrated: int,
    armyDiedStarvation: int,
    armyDeserted: int)
  {
    /** The population gain (a loss when negative) that the screen reports. */
    function Gain(): int {
      born + immigrated - diedDisease - diedMalnutrition - diedStarvation
    }
  }

  /** `(int) (population / 9.5)`, the range of the births draw. */
  function BirthRange(population: int): (n: int)
    ensures population >= 0 ==> 0 <= n && 19 * n <= 2 * population < 19 * (n + 1)
  {
    CDiv(2 * population, 19)
  }

  /** `(float) feed > 1.5 * (float) need`: people fed more than half as much again as they need. */
  predicate Overfed(feed: int, need: int) {
    2 * feed > 3 * need
  }

  /** The army's fighting efficiency: ten times the share of its need it was fed, clamped to [5, 15]. */
  function Efficiency(feed: int, need: int): (e: int)
    requires need != 0
    ensures 5 <= e <= 15
    ensures 5 < e < 15 ==> e == CDiv(10 * feed, need)
    ensures e == 5 <==> CDiv(10 * feed, need) <= 5
    ensures e == 15 <==> CDiv(10 * feed, need) >= 15
  {
    var e := CDiv(10 * feed, need);
    if e < 5 then 5 else if e > 15 then 15 else e
  }

  /** Feeding an army more never lowers its efficiency; a full ration gives at least 100%. */
  lemma EfficiencyMonotone(feed: int, moreFeed: int, need: int)
    requires need > 0 && feed <= moreFeed
    ensures Efficiency(feed, need) <= Efficiency(moreFeed, need)
    ensures feed >= need ==> Efficiency(feed, need) >= 10
  {
    CDivMonotone(10 * feed, 10 * moreFeed, need);
    if feed >= need {
      var q := CDiv(10 * feed, need);
      assert 10 * feed < need * q + need;
      if q < 10 {
        MulLe(need, q + 1, 10);
        assert false;
      }
    }
  }

  /**
   * The army losses of a starving army leave at least nothing of an army that
   * had a soldier, and never add soldiers.
   */
  lemma ArmyAttrition(soldiers: int, died: int, deserted: int)
    requires InRange(died, CDiv(soldiers, 2) + 1)
    requires InRange(deserted, CDiv(soldiers - died, 5))
    ensures soldiers - died - deserted <= soldiers
    ensures soldiers >= 1 ==> 0 <= soldiers - died - deserted
  {
    if soldiers >= 1 {
      var left := soldiers - died;
      assert left >= 0;
      assert deserted <= left;
    }
  }

  /** A starving army of no soldiers still loses one to starvation and ends at -1. */
  lemma EmptyArmyStarves(died: int, deserted: int)
    requires InRange(died, CDiv(0, 2) + 1)
    requires InRange(deserted, CDiv(0 - died, 5))
    ensures 0 - died - deserted == -1
  {
  }

  /**
   * The deaths a year can bring to `population` people whose grain need is
   * `need` and who were fed `feed`: births and disease always, malnutrition
   * and starvation when fed less than half the need, malnutrition alone when
   * fed less than the need.
   */
  predicate DeathsFit(population: int, need: int, feed: int,
                      born: int, diedDisease: int, diedMalnutrition: int, diedStarvation: int) {
    && InRange(born, BirthRange(population))
    && InRange(diedDisease, CDiv(population, 22))
    && (need > 2 * feed ==>
          InRange(diedMalnutrition, CDiv(population, 12) + 1) && InRange(diedStarvation, CDiv(population, 16) + 1))
    && (feed < need <= 2 * feed ==> InRange(diedMalnutrition, CDiv(population, 15) + 1) && diedStarvation == 0)
    && (need <= feed && need <= 2 * feed ==> diedMalnutrition == 0 && diedStarvation == 0)
  }

  /**
   * The immigration a year can bring: none unless the people were overfed.
   * When they were, a draw against one and a half times the customs tax is
   * taken off the root of the surplus, and what is left, if positive, is
   * the room for a draw of up to twice it plus one. A fifth at most of the
   * immigrants are merchants and a twenty-fifth at most nobles.
   */
  predicate ImmigrationFits(need: int, feed: int, customsTax: int, customsDraw: int,
                            immigrated: int, merchantsImmigrated: int, noblesImmigrated: int)
    requires Overfed(feed, need) ==> feed >= need
  {
    && (!Overfed(feed, need) ==> customsDraw == 0 && immigrated == 0)
    && (Overfed(feed, need) ==>
          && InRange(customsDraw, CDiv(3 * customsTax, 2))
          && var room := ISqrt(feed - need) - customsDraw;
             (room > 0 ==> InRange(immigrated, 2 * room + 1)) && (room <= 0 ==> immigrated == 0))
    && InRange(merchantsImmigrated, immigrated / 5)
    && InRange(noblesImmigrated, immigrated / 25)
  }

  /**
   * Immigration never removes people: at most twice the root of the surplus
   * plus one arrive, merchants and nobles are at most a fifth and a
   * twenty-fifth of them; overfed people with no customs tax always draw
   * some immigrants, and any customs tax takes at least two off the most
   * that can arrive.
   */
  lemma ImmigrationBounds(need: int, feed: int, customsTax: int, customsDraw: int,
                          immigrated: int, merchantsImmigrated: int, noblesImmigrated: int)
    requires Overfed(feed, need) ==> feed >= need
    requires ImmigrationFits(need, feed, customsTax, customsDraw, immigrated, merchantsImmigrated, noblesImmigrated)
    ensures 0 <= immigrated
    ensures Overfed(feed, need) ==> immigrated <= 2 * ISqrt(feed - need) + 1
    ensures 0 <= merchantsImmigrated <= immigrated / 5 && 0 <= noblesImmigrated <= immigrated / 25
    ensures Overfed(feed, need) && customsTax <= 0 && feed > need ==> immigrated >= 1
    ensures Overfed(feed, need) && customsTax >= 1 ==> immigrated == 0 || immigrated <= 2 * ISqrt(feed - need) - 1
  {
    if Overfed(feed, need) && customsTax <= 0 {
      assert CDiv(3 * customsTax, 2) <= 0;
      if feed > need {
        assert ISqrt(feed - need) >= 1;
      }
    }
    if Overfed(feed, need) && customsTax >= 1 {
      assert CDiv(3 * customsTax, 2) >= 1;
    }
  }

  /**
   * The army losses a year can bring to `soldiers` soldiers: starvation and
   * then desertion when fed less than half the need, none otherwise.
   */
  predicate ArmyLossesFit(need: int, feed: int, soldiers: int, armyDiedStarvation: int, armyDeserted: int) {
    && (need > 2 * feed ==>
          && InRange(armyDiedStarvation, CDiv(soldiers, 2) + 1)
          && InRange(armyDeserted, CDiv(soldiers - armyDiedStarvation, 5)))
    && (need <= 2 * feed ==> armyDiedStarvation == 0 && armyDeserted == 0)
  }

  /** The deaths of the year, for `population` people given `need` and fed `feed` bushels. */
  method DrawDeaths(population: int, need: int, feed: int, dice: Dice)
    returns (born: int, diedDisease: int, diedMalnutrition: int, diedStarvation: int)
    modifies dice
    ensures DeathsFit(population, need, feed, born, diedDisease, diedMalnutrition, diedStarvation)
  {
    born := dice.Range(BirthRange(population));
    diedDisease := dice.Range(CDiv(population, 22));

    diedStarvation := 0;
    diedMalnutrition := 0;
    if need > 2 * feed {
      diedMalnutrition := dice.Range(CDiv(population, 12) + 1);
      diedStarvation := dice.Range(CDiv(population, 16) + 1);
    } else if need > feed {
      diedMalnutrition := dice.Range(CDiv(population, 15) + 1);
    }
  }

  /** The immigrants of the year and how many of them are merchants and nobles. */
  method DrawImmigration(need: int, feed: int, customsTax: int, dice: Dice)
    returns (customsDraw: int, immigrated: int, merchantsImmigrated: int, noblesImmigrated: int)
    requires Overfed(feed, need) ==> feed >= need
    modifies dice
    ensures ImmigrationFits(need, feed, customsTax, customsDraw, immigrated, merchantsImmigrated, noblesImmigrated)
  {
    customsDraw := 0;
    if Overfed(feed, need) {
      // (int) (1.5 * (float) customsTax)
      customsDraw := dice.Range(CDiv(3 * customsTax, 2));
      immigrated := ISqrt(feed - need) - customsDraw;
      if immigrated > 0 {
        immigrated := dice.Range(2 * immigrated + 1);
      } else {
        immigrated := 0;
      }
    } else {
      immigrated := 0;
    }

    merchantsImmigrated := 0;
    noblesImmigrated := 0;
    if immigrated / 5 > 0 {
      merchantsImmigrated := dice.Range(immigrated / 5);
    }
    if immigrated / 25 > 0 {
      noblesImmigrated := dice.Range(immigrated / 25);
    }
  }

  /** Soldiers of a starving army die, then some of the rest desert. */
  method StarveArmy(p: Player, dice: Dice) returns (armyDiedStarvation: int, armyDeserted: int)
    modifies p`soldierCount, dice
    ensures ArmyLossesFit(p.armyGrainNeed, p.armyGrainFeed, old(p.soldierCount), armyDiedStarvation, armyDeserted)
    ensures p.soldierCount == old(p.soldierCount) - armyDiedStarvation - armyDeserted
    ensures p.soldierCount <= old(p.soldierCount)
    ensures old(p.soldierCount) >= 1 ==> p.soldierCount >= 0
  {
    armyDiedStarvation := 0;
    armyDeserted := 0;
    if p.armyGrainNeed > 2 * p.armyGrainFeed {
      armyDiedStarvation := dice.Range(CDiv(p.soldierCount, 2) + 1);
      p.soldierCount := p.soldierCount - armyDiedStarvation;
      armyDeserted := dice.Range(CDiv(p.soldierCount, 5));
      p.soldierCount := p.soldierCount - armyDeserted;
      ArmyAttrition(old(p.soldierCount), armyDiedStarvation, armyDeserted);
    }
  }

  /** The army's efficiency for the coming year, from its ration. */
  method SetArmyEfficiency(p: Player)
    requires p.armyGrainNeed != 0
    modifies p`armyEfficiency
    ensures p.armyEfficiency == Efficiency(p.armyGrainFeed, p.armyGrainNeed)
  {
    p.armyEfficiency := CDiv(10 * p.armyGrainFeed, p.armyGrainNeed);
    if p.armyEfficiency < 5 {
      p.armyEfficiency := 5;
    } else if p.armyEfficiency > 15 {
      p.armyEfficiency := 15;
    }
  }

  /** Immigrant merchants and nobles join their classes; the rest of the gain goes to the serfs. */
  method UpdatePopulation(p: Player, populationGain: int, merchantsImmigrated: int, noblesImmigrated: int)
    modifies p`serfCount, p`merchantCount, p`nobleCount
    ensures p.Population() == old(p.Population()) + populationGain
    ensures p.merchantCount == old(p.merchantCount) + merchantsImmigrated
    ensures p.nobleCount == old(p.nobleCount) + noblesImmigrated
  {
    p.serfCount := p.serfCount + populationGain - merchantsImmigrated - noblesImmigrated;
    p.merchantCount := p.merchantCount + merchantsImmigrated;
    p.nobleCount := p.nobleCount + noblesImmigrated;
  }

  /**
   * `PopulationScreen` without its display: the year's draws for player `p`,
   * whose grain need and feed the feeding step has set.
   */
  method PopulationScreen(p: Player, dice: Dice) returns (d: Demography)
    requires p.armyGrainNeed != 0
    requires Overfed(p.peopleGrainFeed, p.peopleGrainNeed) ==> p.peopleGrainFeed >= p.peopleGrainNeed
    modifies p`serfCount, p`merchantCount, p`nobleCount, p`soldierCount, p`armyEfficiency, dice
    ensures YearFits(old(p.Population()), old(p.peopleGrainNeed), old(p.peopleGrainFeed), old(p.customsTax),
                     old(p.armyGrainNeed), old(p.armyGrainFeed), old(p.soldierCount), d)
    ensures p.soldierCount == old(p.soldierCount) - d.armyDiedStarvation - d.armyDeserted
    ensures p.armyEfficiency == Efficiency(old(p.armyGrainFeed), old(p.armyGrainNeed))
    ensures p.Population() == old(p.Population()) + d.Gain()
    ensures p.merchantCount == old(p.merchantCount) + d.merchantsImmigrated
    ensures p.nobleCount == old(p.nobleCount) + d.noblesImmigrated
  {
    d := DrawYear(p, dice);
    SetArmyEfficiency(p);
    UpdatePopulation(p, d.Gain(), d.merchantsImmigrated, d.noblesImmigrated);
  }

  /** The draws of the year, in the order `PopulationScreen` makes them, with the army's losses applied. */
  method DrawYear(p: Player, dice: Dice) returns (d: Demography)
    requires Overfed(p.peopleGrainFeed, p.peopleGrainNeed) ==> p.peopleGrainFeed >= p.peopleGrainNeed
    modifies p`soldierCount, dice
    ensures YearFits(p.Population(), p.peopleGrainNeed, p.peopleGrainFeed, p.customsTax,
                     p.armyGrainNeed, p.armyGrainFeed, old(p.soldierCount), d)
    ensures p.soldierCount == old(p.soldierCount) - d.armyDiedStarvation - d.armyDeserted
  {
    var population, need, feed := p.Population(), p.peopleGrainNeed, p.peopleGrainFeed;
    var born, diedDisease, diedMalnutrition, diedStarvation := DrawDeaths(population, need, feed, dice);
    var customsDraw, immigrated, merchantsImmigrated, noblesImmigrated :=
      DrawImmigration(need, feed, p.customsTax, dice);
    var armyDiedStarvation, armyDeserted := StarveArmy(p, dice);
    d := Demography(born, diedDisease, diedMalnutrition, diedStarvation, customsDraw, immigrated,
                    merchantsImmigrated, noblesImmigrated, armyDiedStarvation, armyDeserted);
  }

  /**
   * What a year's draws can be for `population` people with grain need
   * `need` fed `feed` under a customs tax of `customsTax`, and `soldiers`
   * soldiers with need `armyNeed` fed `armyFeed`.
   */
  predicate YearFits(population: int, need: int, feed: int, customsTax: int,
                     armyNeed: int, armyFeed: int, soldiers: int, d: Demography)
    requires Overfed(feed, need) ==> feed >= need
  {
    && DeathsFit(population, need, feed, d.born, d.diedDisease, d.diedMalnutrition, d.diedStarvation)
    && ImmigrationFits(need, feed, customsTax, d.customsDraw, d.immigrated, d.merchantsImmigrated, d.noblesImmigrated)
    && ArmyLossesFit(armyNeed, armyFeed, soldiers, d.armyDiedStarvation, d.armyDeserted)
  }

  /**
   * Over a year, the army never grows and an army that had a soldier is not
   * left negative; immigrants only add people, and only add to the merchants
   * and nobles.
   */
  lemma YearBounds(population: int, need: int, feed: int, customsTax: int,
                   armyNeed: int, armyFeed: int, soldiers: int, d: Demography)
    requires Overfed(feed, need) ==> feed >= need
    requires YearFits(population, need, feed, customsTax, armyNeed, armyFeed, soldiers, d)
    ensures soldiers - d.armyDiedStarvation - d.armyDeserted <= soldiers
    ensures soldiers >= 1 ==> soldiers - d.armyDiedStarvation - d.armyDeserted >= 0
    ensures d.immigrated >= 0 && d.merchantsImmigrated >= 0 && d.noblesImmigrated >= 0
  {
    ImmigrationBounds(need, feed, customsTax, d.customsDraw, d.immigrated, d.merchantsImmigrated, d.noblesImmigrated);
    if armyNeed > 2 * armyFeed {
      ArmyAttrition(soldiers, d.armyDiedStarvation, d.armyDeserted);
    }
  }
}
