/**
 * The attack screen (attack.c): choosing whom to attack, and one battle
 * against another player. The soldiers sent leave the attacker's standing
 * army; the two forces then fight round by round until one of them is gone;
 * a beaten attacker still keeps part of the land it seized; finally the
 * survivors and the land change hands on both player records.
 */
module Attack {
  import opened CMath
  import opened Random
  import opened Empire

  /** The running state of a battle: soldiers left on each side and land seized so far. */
  datatype Fight = Fight(attackers: int, defenders: int, landCaptured: int)

  /**
   * The draws one round consumes: the attacker's and the defender's efficiency
   * rolls, then, only when the attacker wins the round, the land gained and
   * the land given back (both 0 in a round the attacker loses).
   */
  datatype RoundDraws = RoundDraws(attackerRoll: int, defenderRoll: int, gain: int, loss: int)

  /** What one attack produced, or the rejection of the number of soldiers to send. */
  datatype AttackResult =
    | SendRefused
    | Fought(survivors: int, targetSurvivors: int, landSeized: int)

  function Floor0(x: int): int {
    if x < 0 then 0 else x
  }

  /** Soldiers killed on the losing side of a round: one per 15 attackers still fighting, plus one. */
  function KillCount(attackers: int): (k: int)
    ensures attackers >= 0 ==> k >= 1 && 15 * (k - 1) <= attackers < 15 * k
  {
    CDiv(attackers, 15) + 1
  }

  /** The attacker loses a round only when its roll is strictly below the defender's: ties go to the attacker. */
  predicate AttackerLoses(d: RoundDraws) {
    d.attackerRoll < d.defenderRoll
  }

  /** A battle is over once either side has no soldiers left. */
  predicate Ended(f: Fight) {
    f.attackers == 0 || f.defenders == 0
  }

  /**
   * One round of the battle loop. The loser of the round loses exactly
   * `KillCount` soldiers, or all it has left; the winner loses none. A won
   * round moves the land seized by `gain - loss`, never below 0.
   */
  function Round(f: Fight, d: RoundDraws): (r: Fight)
    ensures AttackerLoses(d) ==>
      && r.defenders == f.defenders && r.landCaptured == f.landCaptured
      && 0 <= r.attackers && f.attackers - KillCount(f.attackers) <= r.attackers
      && (r.attackers == 0 || r.attackers == f.attackers - KillCount(f.attackers))
    ensures !AttackerLoses(d) ==>
      && r.attackers == f.attackers
      && 0 <= r.defenders && f.defenders - KillCount(f.attackers) <= r.defenders
      && (r.defenders == 0 || r.defenders == f.defenders - KillCount(f.attackers))
      && 0 <= r.landCaptured && f.landCaptured + d.gain - d.loss <= r.landCaptured
      && (r.landCaptured == 0 || r.landCaptured == f.landCaptured + d.gain - d.loss)
  {
    var kill := KillCount(f.attackers);
    if AttackerLoses(d) then
      f.(attackers := Floor0(f.attackers - kill))
    else
      Fight(f.attackers, Floor0(f.defenders - kill), Floor0(f.landCaptured + d.gain - d.loss))
  }

  /** The state after playing `rounds` in order from `start`. */
  function Play(start: Fight, rounds: seq<RoundDraws>): Fight {
    if rounds == [] then start
    else Round(Play(start, rounds[..|rounds| - 1]), rounds[|rounds| - 1])
  }

  /** True when `d` holds draws the dice can produce for a round fought from `f`. */
  predicate DrawsFit(f: Fight, efficiency: int, targetEfficiency: int, d: RoundDraws) {
    var kill := KillCount(f.attackers);
    && InRange(d.attackerRoll, efficiency)
    && InRange(d.defenderRoll, targetEfficiency)
    && if AttackerLoses(d) then d.gain == 0 && d.loss == 0
       else InRange(d.gain, 26 * kill) && InRange(d.loss, kill + 5)
  }

  /** A bound on the rounds still to come: soldiers on both sides (a negative defender count weighs 1). */
  function Measure(f: Fight): int {
    f.attackers + (if f.defenders < 0 then 1 else f.defenders)
  }

  /** A round after which the battle goes on has taken at least one soldier from one side. */
  lemma RoundProgress(f: Fight, d: RoundDraws)
    requires f.attackers >= 0
    requires !Ended(Round(f, d))
    ensures 0 <= Measure(Round(f, d)) < Measure(f)
  {
  }

  /**
   * Over any number of rounds the attackers never grow and never go below 0,
   * the land seized never goes below 0, and a defender that started with a
   * non-negative count never grows either.
   */
  lemma {:induction false} PlayBounds(start: Fight, rounds: seq<RoundDraws>)
    requires start.attackers >= 0 && start.landCaptured >= 0
    ensures var end := Play(start, rounds);
      && 0 <= end.attackers <= start.attackers
      && 0 <= end.landCaptured
      && (start.defenders >= 0 ==> 0 <= end.defenders <= start.defenders)
      && (start.defenders < 0 ==> end.defenders == start.defenders || end.defenders == 0)
  {
    if rounds != [] {
      PlayBounds(start, rounds[..|rounds| - 1]);
    }
  }

  /** While the battle goes on, every round has taken a soldier: the measure falls by at least the rounds played. */
  lemma {:induction false} Descent(start: Fight, rounds: seq<RoundDraws>)
    requires start.attackers >= 0 && start.landCaptured >= 0
    requires forall k :: 0 < k <= |rounds| ==> !Ended(Play(start, rounds[..k]))
    ensures Measure(Play(start, rounds)) + |rounds| <= Measure(start)
  {
    if rounds != [] {
      var prefix := rounds[..|rounds| - 1];
      forall k | 0 < k <= |prefix|
        ensures !Ended(Play(start, prefix[..k]))
      {
        assert prefix[..k] == rounds[..k];
      }
      Descent(start, prefix);
      PlayBounds(start, prefix);
      assert rounds[..|rounds|] == rounds;
      RoundProgress(Play(start, prefix), rounds[|rounds| - 1]);
    }
  }

  /**
   * The battle loop terminates: a battle that stops at the first round after
   * which one side is gone lasts at most `sent + targetSoldiers + 1` rounds.
   */
  lemma BattleLength(start: Fight, rounds: seq<RoundDraws>)
    requires start.attackers >= 0 && start.landCaptured >= 0
    requires StopsAtFirstEnd(start, rounds)
    ensures |rounds| <= Measure(start) + 1
  {
    if |rounds| > 1 {
      var prefix := rounds[..|rounds| - 1];
      forall k | 0 < k <= |prefix|
        ensures !Ended(Play(start, prefix[..k]))
      {
        assert prefix[..k] == rounds[..k];
      }
      Descent(start, prefix);
      PlayBounds(start, prefix);
    }
  }

  /**
   * The land a beaten attacker still keeps: the land seized divided by a
   * draw in [1, 3] when more than 2 acres were seized, and none otherwise.
   */
  function Consolation(landCaptured: int, draw: int): (r: int)
    requires landCaptured > 2 ==> InRange(draw, 3)
    ensures landCaptured <= 2 ==> r == 0
    ensures landCaptured > 2 ==> 0 < r <= landCaptured && r * draw <= landCaptured < (r + 1) * draw
  {
    if landCaptured > 2 then landCaptured / draw else 0
  }

  /**
   * The check on the number of soldiers to send. The game only compares with
   * the standing army, so a negative number passes; see `SendAccepted`.
   */
  predicate SendAcceptedAsWritten(sent: int, soldierCount: int) {
    sent <= soldierCount
  }

  /** The corrected check: between none and the whole standing army. */
  predicate SendAccepted(sent: int, soldierCount: int) {
    0 <= sent <= soldierCount
  }

  /**
   * Sending -100 soldiers passes the check as written. With an army of 0 the
   * army becomes 100 before the battle; when the attacker loses the first
   * round its force is floored to 0 and the battle ends, so nothing is taken
   * back and the attacker keeps 100 new soldiers. A round it wins instead
   * adds 5 soldiers to the defender, because the kill count is negative.
   */
  lemma NegativeSendRaisesArmy()
    ensures SendAcceptedAsWritten(-100, 0) && !SendAccepted(-100, 0)
    ensures var end := Round(Fight(-100, 10, 0), RoundDraws(1, 2, 0, 0));
      Ended(end) && end.attackers == 0 && 0 - (-100) + end.attackers == 100
    ensures Round(Fight(-100, 10, 0), RoundDraws(2, 1, 0, 1)).defenders == 15
  {
  }

  /**
   * A send of -15 to -29 soldiers passes the check as written and has a kill
   * count of 0. Against a defender fighting at efficiency 1 the defender's
   * roll of 1 never beats the attacker's, so every round the dice can
   * produce leaves the battle exactly where it was.
   */
  lemma NegativeSendStandsStill(sent: int, defenders: int, efficiency: int, d: RoundDraws)
    requires -29 <= sent <= -15 && defenders > 0 && efficiency >= 1
    requires DrawsFit(Fight(sent, defenders, 0), efficiency, 1, d)
    ensures SendAcceptedAsWritten(sent, 0) && !SendAccepted(sent, 0)
    ensures KillCount(sent) == 0 && !AttackerLoses(d)
    ensures Round(Fight(sent, defenders, 0), d) == Fight(sent, defenders, 0)
  {
    var q := CDiv(sent, 15);
    assert 15 * Abs(q) <= -sent < 15 * Abs(q) + 15;
    assert q == -1;
  }

  /**
   * The battle loop as written need not end: from such a send, no number of
   * rounds the dice can produce ever leaves a side empty.
   */
  lemma {:induction false} NegativeSendNeverEnds(sent: int, defenders: int, efficiency: int,
                                                 rounds: seq<RoundDraws>)
    requires -29 <= sent <= -15 && defenders > 0 && efficiency >= 1
    requires AllDrawsFit(Fight(sent, defenders, 0), rounds, efficiency, 1)
    ensures Play(Fight(sent, defenders, 0), rounds) == Fight(sent, defenders, 0)
    ensures !Ended(Play(Fight(sent, defenders, 0), rounds))
  {
    var start := Fight(sent, defenders, 0);
    if rounds != [] {
      var n := |rounds| - 1;
      var prefix := rounds[..n];
      forall i | 0 <= i < |prefix|
        ensures DrawsFit(Play(start, prefix[..i]), efficiency, 1, prefix[i])
      {
        assert prefix[..i] == rounds[..i];
      }
      NegativeSendNeverEnds(sent, defenders, efficiency, prefix);
      assert DrawsFit(Play(start, rounds[..n]), efficiency, 1, rounds[n]);
      NegativeSendStandsStill(sent, defenders, efficiency, rounds[n]);
    }
  }

  /** No round before the last one ended the battle: the loop stops at the first round that does. */
  predicate StopsAtFirstEnd(start: Fight, rounds: seq<RoundDraws>) {
    forall k :: 0 < k < |rounds| ==> !Ended(Play(start, rounds[..k]))
  }

  /** Every round's draws are ones the dice can produce at that point of the battle. */
  predicate AllDrawsFit(start: Fight, rounds: seq<RoundDraws>, efficiency: int, targetEfficiency: int) {
    forall i :: 0 <= i < |rounds| ==> DrawsFit(Play(start, rounds[..i]), efficiency, targetEfficiency, rounds[i])
  }

  /**
   * The round loop of `AttackPlayer`, from `soldierCount` attackers against
   * `targetSoldierCount` defenders with nothing seized yet. It plays rounds
   * until one side is gone and returns the final state; the rounds it drew
   * are returned as a ghost record.
   */
  method Battle(soldierCount: int, soldierEfficiency: int, targetSoldierCount: int,
                targetSoldierEfficiency: int, dice: Dice)
    returns (end: Fight, ghost rounds: seq<RoundDraws>)
    requires soldierCount >= 0
    modifies dice
    ensures var start := Fight(soldierCount, targetSoldierCount, 0);
      && end == Play(start, rounds)
      && |rounds| > 0 && Ended(end)
      && StopsAtFirstEnd(start, rounds)
      && AllDrawsFit(start, rounds, soldierEfficiency, targetSoldierEfficiency)
  {
    ghost var start := Fight(soldierCount, targetSoldierCount, 0);
    var soldierCount, targetSoldierCount, landCaptured := soldierCount, targetSoldierCount, 0;
    rounds := [];
    var over := false;
    while !over
      invariant Fight(soldierCount, targetSoldierCount, landCaptured) == Play(start, rounds)
      invariant 0 <= soldierCount && 0 <= landCaptured
      invariant over <==> |rounds| > 0 && Ended(Play(start, rounds))
      invariant StopsAtFirstEnd(start, rounds)
      invariant AllDrawsFit(start, rounds, soldierEfficiency, targetSoldierEfficiency)
      decreases if over then 0 else Measure(Play(start, rounds)) + 1
    {
      var before := Fight(soldierCount, targetSoldierCount, landCaptured);
      var next;
      ghost var draws;
      next, draws := PlayRound(before, soldierEfficiency, targetSoldierEfficiency, dice);
      soldierCount, targetSoldierCount, landCaptured := next.attackers, next.defenders, next.landCaptured;
      Extend(start, rounds, draws, soldierEfficiency, targetSoldierEfficiency);
      rounds := rounds + [draws];
      over := soldierCount == 0 || targetSoldierCount == 0;
      if !over {
        RoundProgress(before, draws);
      }
    }
    end := Fight(soldierCount, targetSoldierCount, landCaptured);
  }

  /**
   * One pass of the battle loop from `f`: both efficiency rolls, then either
   * the attacker's losses or the land moved and the defender's losses. The
   * draws made are returned as a ghost record of the round.
   */
  method PlayRound(f: Fight, efficiency: int, targetEfficiency: int, dice: Dice)
    returns (next: Fight, ghost draws: RoundDraws)
    modifies dice
    ensures next == Round(f, draws) && DrawsFit(f, efficiency, targetEfficiency, draws)
  {
    var soldierCount, targetSoldierCount, landCaptured := f.attackers, f.defenders, f.landCaptured;
    var soldierKillCount := KillCount(soldierCount);
    var roll := dice.Range(efficiency);
    var targetRoll := dice.Range(targetEfficiency);
    if roll < targetRoll {
      // The attacker lost the round.
      soldierCount := soldierCount - soldierKillCount;
      if soldierCount < 0 {
        soldierCount := 0;
      }
      draws := RoundDraws(roll, targetRoll, 0, 0);
    } else {
      // The attacker won the round.
      var gain := dice.Range(26 * soldierKillCount);
      var loss := dice.Range(soldierKillCount + 5);
      landCaptured := landCaptured + gain - loss;
      if landCaptured < 0 {
        landCaptured := 0;
      }
      targetSoldierCount := targetSoldierCount - soldierKillCount;
      if targetSoldierCount < 0 {
        targetSoldierCount := 0;
      }
      draws := RoundDraws(roll, targetRoll, gain, loss);
    }
    next := Fight(soldierCount, targetSoldierCount, landCaptured);
  }

  /** Appending the round just played keeps the battle record's two properties. */
  lemma Extend(start: Fight, rounds: seq<RoundDraws>, d: RoundDraws, efficiency: int, targetEfficiency: int)
    requires StopsAtFirstEnd(start, rounds)
    requires rounds != [] ==> !Ended(Play(start, rounds))
    requires AllDrawsFit(start, rounds, efficiency, targetEfficiency)
    requires DrawsFit(Play(start, rounds), efficiency, targetEfficiency, d)
    ensures Play(start, rounds + [d]) == Round(Play(start, rounds), d)
    ensures StopsAtFirstEnd(start, rounds + [d])
    ensures AllDrawsFit(start, rounds + [d], efficiency, targetEfficiency)
  {
    var longer := rounds + [d];
    assert longer[..|rounds|] == rounds;
    forall k | 0 <= k <= |rounds|
      ensures longer[..k] == rounds[..k]
    {
    }
  }

  /**
   * `AttackPlayer`: `attacker` sends `sent` soldiers against `target`. The
   * rounds drawn are returned as a ghost record of the battle.
   */
  method AttackPlayer(attacker: Player, target: Player, sent: int, dice: Dice)
    returns (result: AttackResult, ghost rounds: seq<RoundDraws>)
    requires attacker != target
    modifies attacker`soldierCount, attacker`land, target`soldierCount, target`land, dice
    ensures result.Fought? <==> SendAccepted(sent, old(attacker.soldierCount))
    ensures result.SendRefused? ==>
      && rounds == [] && dice.used == old(dice.used)
      && attacker.soldierCount == old(attacker.soldierCount) && attacker.land == old(attacker.land)
      && target.soldierCount == old(target.soldierCount) && target.land == old(target.land)
    ensures result.Fought? ==>
      var start := Fight(sent, old(target.soldierCount), 0);
      var end := Play(start, rounds);
      && |rounds| > 0 && Ended(end)
      && StopsAtFirstEnd(start, rounds)
      && AllDrawsFit(start, rounds, attacker.armyEfficiency, target.armyEfficiency)
      && result.survivors == end.attackers
      && result.targetSurvivors == end.defenders
      && (end.attackers > 0 ==> result.landSeized == end.landCaptured)
      && (end.attackers == 0 ==>
            exists draw :: InRange(draw, 3) && result.landSeized == Consolation(end.landCaptured, draw))
      && attacker.soldierCount == old(attacker.soldierCount) - sent + result.survivors
      && target.soldierCount == result.targetSurvivors
      && attacker.land == old(attacker.land) + result.landSeized
      && target.land == old(target.land) - result.landSeized
    ensures attacker.land + target.land == old(attacker.land + target.land)
    ensures attacker.soldierCount <= old(attacker.soldierCount)
    ensures old(target.soldierCount) >= 0 ==> 0 <= target.soldierCount <= old(target.soldierCount)
    ensures result.Fought? ==>
      && 0 <= result.landSeized && attacker.land >= old(attacker.land)
      && (result.survivors == 0 || result.targetSurvivors == 0)
  {
    if !SendAccepted(sent, attacker.soldierCount) {
      return SendRefused, [];
    }
    attacker.soldierCount := attacker.soldierCount - sent;

    var end;
    end, rounds := Battle(sent, attacker.armyEfficiency, target.soldierCount, target.armyEfficiency, dice);
    PlayBounds(Fight(sent, old(target.soldierCount), 0), rounds);
    var soldierCount, targetSoldierCount, landCaptured := end.attackers, end.defenders, end.landCaptured;

    if soldierCount > 0 {
      // Victory: the attacker keeps all the land it seized.
    } else {
      // Defeat: a consolation share of the land seized, if any.
      if landCaptured > 2 {
        var draw := dice.Range(3);
        landCaptured := landCaptured / draw;
        assert landCaptured == Consolation(end.landCaptured, draw);
      } else {
        landCaptured := 0;
        assert landCaptured == Consolation(end.landCaptured, 1);
      }
    }

    // Write the survivors and the land back to both players.
    attacker.soldierCount := attacker.soldierCount + soldierCount;
    target.soldierCount := targetSoldierCount;
    attacker.land := attacker.land + landCaptured;
    target.land := target.land - landCaptured;
    result := Fought(soldierCount, targetSoldierCount, landCaptured);
  }

  /** What a country number typed on the attack screen selects. */
  datatype Choice =
    | EndAttacks          // 0: the attack phase is over
    | Barbarians          // 1: the barbarians
    | Target(index: nat)  // 2..7: the player in slot number - 2
    | ThinkAgain          // the attacker's own number
    | NoChoice            // any other number: asked again

  /**
   * The dispatch of `AttackScreen` for the player in slot `self`: 0 ends the
   * phase, 1 picks the barbarians, 2..7 pick a player slot unless it is the
   * attacker's own.
   */
  function ChooseTarget(country: int, self: nat): (c: Choice)
    ensures c == EndAttacks <==> country == 0
    ensures c == Barbarians <==> country == 1
    ensures c == ThinkAgain <==> 2 <= country <= COUNTRY_COUNT + 1 && country - 2 == self
    ensures c.Target? <==> 2 <= country <= COUNTRY_COUNT + 1 && country - 2 != self
    ensures c.Target? ==> c.index == country - 2 && c.index < COUNTRY_COUNT && c.index != self
    ensures c == NoChoice <==> country < 0 || COUNTRY_COUNT + 1 < country
  {
    if country == 0 then EndAttacks
    else if country == 1 then Barbarians
    else if 2 <= country <= COUNTRY_COUNT + 1 then
      (if country - 2 == self then ThinkAgain else Target(country - 2))
    else NoChoice
  }

  /** What one pass of the attack screen led to: no battle, or the outcome of an attack. */
  datatype Turn = NoBattle | Attacked(outcome: AttackResult)

  /**
   * One pass of the `AttackScreen` loop: the number typed selects a target,
   * and only another player's slot leads to a battle. Attacking the
   * barbarians does nothing. Only soldier counts and land can change.
   */
  method AttackScreenTurn(players: seq<Player>, self: nat, country: int, sent: int, dice: Dice)
    returns (c: Choice, turn: Turn, ghost rounds: seq<RoundDraws>)
    requires |players| == COUNTRY_COUNT && self < |players|
    requires forall i, j :: 0 <= i < j < |players| ==> players[i] != players[j]
    modifies players`soldierCount, players`land, dice
    ensures c == ChooseTarget(country, self)
    ensures turn.Attacked? <==> c.Target?
    ensures !c.Target? ==> unchanged(players) && unchanged(dice)
    ensures c.Target? ==>
      && (forall i :: 0 <= i < |players| && i != self && i != c.index ==>
            players[i].soldierCount == old(players[i].soldierCount) && players[i].land == old(players[i].land))
      && (turn.outcome.Fought? <==> SendAccepted(sent, old(players[self].soldierCount)))
      && (turn.outcome.SendRefused? ==>
            && players[self].soldierCount == old(players[self].soldierCount)
            && players[self].land == old(players[self].land)
            && players[c.index].soldierCount == old(players[c.index].soldierCount)
            && players[c.index].land == old(players[c.index].land)
            && dice.used == old(dice.used))
      && (turn.outcome.Fought? ==>
            var start := Fight(sent, old(players[c.index].soldierCount), 0);
            var end := Play(start, rounds);
            && |rounds| > 0 && Ended(end)
            && StopsAtFirstEnd(start, rounds)
            && AllDrawsFit(start, rounds, players[self].armyEfficiency, players[c.index].armyEfficiency)
            && turn.outcome.survivors == end.attackers
            && turn.outcome.targetSurvivors == end.defenders
            && (end.attackers > 0 ==> turn.outcome.landSeized == end.landCaptured)
            && (end.attackers == 0 ==>
                  exists draw :: InRange(draw, 3) && turn.outcome.landSeized == Consolation(end.landCaptured, draw))
            && 0 <= turn.outcome.landSeized
            && (turn.outcome.survivors == 0 || turn.outcome.targetSurvivors == 0)
            && players[self].soldierCount
               == old(players[self].soldierCount) - sent + turn.outcome.survivors
            && players[c.index].soldierCount == turn.outcome.targetSurvivors
            && players[self].land == old(players[self].land) + turn.outcome.landSeized
            && players[c.index].land == old(players[c.index].land) - turn.outcome.landSeized)
      && players[self].land + players[c.index].land == old(players[self].land + players[c.index].land)
      && players[self].soldierCount <= old(players[self].soldierCount)
      && (old(players[c.index].soldierCount) >= 0 ==>
            0 <= players[c.index].soldierCount <= old(players[c.index].soldierCount))
  {
    c := ChooseTarget(country, self);
    turn, rounds := NoBattle, [];
    if c.Target? {
      var result;
      result, rounds := AttackPlayer(players[self], players[c.index], sent, dice);
      turn := Attacked(result);
    }
  }
}
