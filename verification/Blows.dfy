/** What the dice of one round decide: who strikes, who dodges, what it costs. */
module Blows {
  import opened Combat

  /** The player strikes unless the enemy was first and its blow fells the player. */
  predicate PlayerStrikes(p: Fighter, n: Fighter, currHP: int, r: Rolls) {
    r.nInit <= r.pInit || r.pLuck <= p.dexterity || currHP > n.strength + r.nSkill
  }

  /** The enemy strikes unless the player was first, as on a tie, and fells it. */
  predicate EnemyStrikes(p: Fighter, n: Fighter, npcHP: int, r: Rolls) {
    r.nInit > r.pInit || r.nLuck <= n.dexterity || npcHP > p.strength + r.pSkill
  }

  /** All of a round, from who strikes: a dodge is a luck roll up to the dexterity of the one who
      is struck at, a blow that is not dodged costs its strength and skill roll, and one that is
      not struck costs nothing. */
  lemma RoundByBlows(p: Fighter, n: Fighter, currHP: int, npcHP: int, r: Rolls)
    requires Legal(p, n, r) && currHP > 0 && npcHP > 0 && p.strength >= 0 && n.strength >= 0
    ensures var o := Round(p, n, currHP, npcHP, r); var rep := o.report;
      && (rep.playerDodged <==> EnemyStrikes(p, n, npcHP, r) && r.pLuck <= p.dexterity)
      && (rep.npcDodged <==> PlayerStrikes(p, n, currHP, r) && r.nLuck <= n.dexterity)
      && rep.npcDealt == (if EnemyStrikes(p, n, npcHP, r) && r.pLuck > p.dexterity then n.strength + r.nSkill else 0)
      && rep.playerDealt == (if PlayerStrikes(p, n, currHP, r) && r.nLuck > n.dexterity then p.strength + r.pSkill else 0)
      && o.currHP == currHP - rep.npcDealt && rep.playerHP == Floor(o.currHP)
      && o.npcHP == rep.npcHP == Floor(npcHP - rep.playerDealt)
      && (o.over <==> o.currHP <= 0 || o.npcHP <= 0)
      && rep.pInit == r.pInit && rep.nInit == r.nInit
  {
  }

  lemma {:induction false} AsMany(s: set<int>, n: nat)
    requires forall v :: v in s <==> 1 <= v <= n
    ensures |s| == n
  {
    if n == 0 {
      assert forall v :: v in s <==> v in {};
    } else {
      AsMany(s - {n}, n - 1);
      assert s == (s - {n}) + {n};
    }
  }

  function PlayerLuck(r: Rolls, v: int): Rolls {
    r.(pLuck := v)
  }

  function EnemyLuck(r: Rolls, v: int): Rolls {
    r.(nLuck := v)
  }

  /** The player's luck rolls, all other rolls being what they are, with which the enemy's blow
      misses. */
  ghost function Misses(p: Fighter, n: Fighter, currHP: int, npcHP: int, r: Rolls): set<int> {
    set v: int | 1 <= v <= 100 && Round(p, n, currHP, npcHP, PlayerLuck(r, v)).report.npcDealt == 0
  }

  ghost function EnemyMisses(p: Fighter, n: Fighter, currHP: int, npcHP: int, r: Rolls): set<int> {
    set v: int | 1 <= v <= 100 && Round(p, n, currHP, npcHP, EnemyLuck(r, v)).report.playerDealt == 0
  }

  /** Out of a hundred luck rolls exactly as many as its dexterity let the player dodge, the lowest;
      with any other the blow costs strength and skill roll. */
  lemma PlayerDodgesByDexterity(p: Fighter, n: Fighter, currHP: int, npcHP: int, r: Rolls)
    requires Legal(p, n, r) && currHP > 0 && npcHP > 0 && p.strength >= 0 && n.strength >= 0 && 0 <= p.dexterity <= 100
    requires EnemyStrikes(p, n, npcHP, r)
    ensures var misses := Misses(p, n, currHP, npcHP, r);
      && |misses| == p.dexterity && (forall v :: v in misses <==> 1 <= v <= p.dexterity)
      && forall v :: 1 <= v <= 100 && v !in misses ==>
           Round(p, n, currHP, npcHP, PlayerLuck(r, v)).report.npcDealt == n.strength + r.nSkill
  {
    var misses := Misses(p, n, currHP, npcHP, r);
    forall v | 1 <= v <= 100 ensures v in misses <==> v <= p.dexterity {
      RoundByBlows(p, n, currHP, npcHP, PlayerLuck(r, v));
    }
    AsMany(misses, p.dexterity);
  }

  /** And the same for the enemy and the player's blow. */
  lemma EnemyDodgesByDexterity(p: Fighter, n: Fighter, currHP: int, npcHP: int, r: Rolls)
    requires Legal(p, n, r) && currHP > 0 && npcHP > 0 && p.strength >= 0 && n.strength >= 0 && 0 <= n.dexterity <= 100
    requires PlayerStrikes(p, n, currHP, r)
    ensures var misses := EnemyMisses(p, n, currHP, npcHP, r);
      && |misses| == n.dexterity && (forall v :: v in misses <==> 1 <= v <= n.dexterity)
      && forall v :: 1 <= v <= 100 && v !in misses ==>
           Round(p, n, currHP, npcHP, EnemyLuck(r, v)).report.playerDealt == p.strength + r.pSkill
  {
    var misses := EnemyMisses(p, n, currHP, npcHP, r);
    forall v | 1 <= v <= 100 ensures v in misses <==> v <= n.dexterity {
      RoundByBlows(p, n, currHP, npcHP, EnemyLuck(r, v));
    }
    AsMany(misses, n.dexterity);
  }

  /** A lost fight leaves half of the maximum, rounded up; any other what is left. */
  lemma HalfIsLeft(currHP: int, maxHP: int)
    requires maxHP > 0
    ensures var hp := AfterFight(currHP, maxHP);
      if currHP > 0 then hp == currHP else maxHP <= 2 * hp <= maxHP + 1
  {
  }

  /** The fight loop plays a round for every ATTACK, until one of them ends the fight. */
  lemma {:induction false} FightPlaysOut(p: Fighter, n: Fighter, currHP: int, npcHP: int, rolls: seq<Rolls>)
    ensures var f := Fight(p, n, currHP, npcHP, rolls);
      |f| <= |rolls| && (|f| < |rolls| ==> f != [] && f[|f| - 1].over)
    decreases |rolls|
  {
    if rolls != [] {
      var o := Round(p, n, currHP, npcHP, rolls[0]);
      if !o.over {
        FightPlaysOut(p, n, o.currHP, o.npcHP, rolls[1..]);
      }
    }
  }
}
