/** The arithmetic of a fight: one round, and a whole fight of them. */
module Combat {

  datatype Fighter = Fighter(strength: int, battleSkill: int, dexterity: int)

  /** The random numbers of one round: extra damage, initiative and luck of either side. */
  datatype Rolls = Rolls(pSkill: int, pInit: int, pLuck: int, nSkill: int, nInit: int, nLuck: int)

  predicate Legal(p: Fighter, n: Fighter, r: Rolls) {
    && 1 <= r.pSkill <= p.battleSkill && 1 <= r.nSkill <= n.battleSkill
    && 1 <= r.pInit <= 6 && 1 <= r.nInit <= 6
    && 1 <= r.pLuck <= 100 && 1 <= r.nLuck <= 100
  }

  datatype Result = Result(
    pInit: int, nInit: int, playerDodged: bool, npcDodged: bool,
    playerDealt: int, npcDealt: int, playerHP: int, npcHP: int)

  /** A round's effect: the player's stored HP, which may be negative, the NPC's, and what
      is reported. */
  datatype Outcome = Outcome(currHP: int, npcHP: int, over: bool, report: Result)

  function Dealt(damage: int, dodged: bool): int {
    if dodged then 0 else damage
  }

  function Floor(hp: int): int {
    if hp < 0 then 0 else hp
  }

  function Round(p: Fighter, n: Fighter, currHP: int, npcHP: int, r: Rolls): Outcome {
    var pDodged, nDodged := r.pLuck <= p.dexterity, r.nLuck <= n.dexterity;
    var pHit, nHit := Dealt(p.strength + r.pSkill, nDodged), Dealt(n.strength + r.nSkill, pDodged);
    if r.pInit >= r.nInit then
      if npcHP - pHit <= 0
      then Outcome(currHP, 0, true, Result(r.pInit, r.nInit, false, nDodged, pHit, 0, Floor(currHP), 0))
      else Outcome(currHP - nHit, npcHP - pHit, currHP - nHit <= 0,
                   Result(r.pInit, r.nInit, pDodged, nDodged, pHit, nHit, Floor(currHP - nHit), npcHP - pHit))
    else
      if currHP - nHit <= 0
      then Outcome(currHP - nHit, npcHP, true, Result(r.pInit, r.nInit, pDodged, false, 0, nHit, 0, npcHP))
      else Outcome(currHP - nHit, Floor(npcHP - pHit), npcHP - pHit <= 0,
                   Result(r.pInit, r.nInit, pDodged, nDodged, pHit, nHit, currHP - nHit, Floor(npcHP - pHit)))
  }

  /** What a round means to whoever reads its report. */
  lemma RoundIsFair(p: Fighter, n: Fighter, currHP: int, npcHP: int, r: Rolls)
    requires Legal(p, n, r) && currHP > 0 && npcHP > 0 && p.strength >= 0 && n.strength >= 0
    ensures var o := Round(p, n, currHP, npcHP, r); var rep := o.report;
      // the report is the truth, floored at nothing left
      && rep.playerHP == Floor(currHP - rep.npcDealt) == Floor(o.currHP)
      && rep.npcHP == Floor(npcHP - rep.playerDealt) == o.npcHP
      // the fight is over when and only when one side, never both, has nothing left
      && (o.over <==> rep.playerHP == 0 || rep.npcHP == 0)
      && !(rep.playerHP == 0 && rep.npcHP == 0)
      // whoever is felled before striking deals nothing
      && (r.pInit >= r.nInit && rep.npcHP == 0 ==> rep.npcDealt == 0 && !rep.playerDodged)
      && (r.pInit < r.nInit && rep.playerHP == 0 ==> rep.playerDealt == 0 && !rep.npcDodged)
      // a hit that lands costs at least the strength and one more; a dodge costs nothing
      && (rep.playerDealt != 0 ==> p.strength + 1 <= rep.playerDealt <= p.strength + p.battleSkill)
      && (rep.npcDealt != 0 ==> n.strength + 1 <= rep.npcDealt <= n.strength + n.battleSkill)
      && (rep.npcDodged ==> rep.playerDealt == 0) && (rep.playerDodged ==> rep.npcDealt == 0)
      && (!o.over ==> (rep.npcDodged <==> rep.playerDealt == 0) && (rep.playerDodged <==> rep.npcDealt == 0))
  {
  }

  // ---- The fight goroutine ----

  /** The rounds of a fight up to the first that ends it. */
  function Fight(p: Fighter, n: Fighter, currHP: int, npcHP: int, rolls: seq<Rolls>): seq<Outcome>
    decreases |rolls|
  {
    if rolls == [] then []
    else
      var o := Round(p, n, currHP, npcHP, rolls[0]);
      if o.over then [o] else [o] + Fight(p, n, o.currHP, o.npcHP, rolls[1..])
  }

  /** What is left of a lost fight: half the maximum, rounded up. */
  function AfterFight(currHP: int, maxHP: int): int {
    if currHP <= 0 then (if maxHP <= 0 then 0 else (maxHP + 1) / 2) else currHP
  }

  class BattleField {
    const player: Fighter
    const npc: Fighter
    const maxHP: int
    var currHP: int        // the player's
    var npcCurrHP: int

    constructor (player: Fighter, npc: Fighter, maxHP: int, currHP: int, npcHP: int)
      ensures this.player == player && this.npc == npc && this.maxHP == maxHP
      ensures this.currHP == currHP && this.npcCurrHP == npcHP
    {
      this.player, this.npc, this.maxHP := player, npc, maxHP;
      this.currHP, this.npcCurrHP := currHP, npcHP;
    }

    method ApplyDmgToPlayer(damage: int) returns (hp: int, felled: bool)
      modifies this`currHP
      ensures currHP == hp == old(currHP) - damage && (felled <==> hp <= 0)
    {
      currHP := currHP - damage;
      return currHP, currHP <= 0;
    }

    /** One round, in the order the two sides act. */
    method CalcRound(r: Rolls) returns (rep: Result, over: bool)
      modifies this
      ensures var o := Round(player, npc, old(currHP), old(npcCurrHP), r);
              currHP == o.currHP && npcCurrHP == o.npcHP && rep == o.report && over == o.over
    {
      var pDodged := !(r.pLuck > player.dexterity);
      var nDodged := !(r.nLuck > npc.dexterity);
      var pDealt, nDealt, playerHP := 0, 0, 0;
      over := false;
      if r.pInit >= r.nInit {
        pDealt := Dealt(player.strength + r.pSkill, nDodged);
        npcCurrHP := npcCurrHP - pDealt;
        if npcCurrHP <= 0 {
          npcCurrHP := 0;
          over := true;
          playerHP := currHP;
          pDodged := false;
        } else {
          nDealt := Dealt(npc.strength + r.nSkill, pDodged);
          playerHP, over := ApplyDmgToPlayer(nDealt);
        }
      } else {
        nDealt := Dealt(npc.strength + r.nSkill, pDodged);
        playerHP, over := ApplyDmgToPlayer(nDealt);
        if !over {
          pDealt := Dealt(player.strength + r.pSkill, nDodged);
          npcCurrHP := npcCurrHP - pDealt;
          if npcCurrHP <= 0 {
            npcCurrHP := 0;
            over := true;
          }
        } else {
          nDodged := false;
        }
      }
      if playerHP < 0 {
        playerHP := 0;
      }
      rep := Result(r.pInit, r.nInit, pDodged, nDodged, pDealt, nDealt, playerHP, npcCurrHP);
    }

    /** The fight loop, one roll record for every ATTACK the player sends. */
    method ProcessBattle(rolls: seq<Rolls>) returns (rounds: seq<Outcome>)
      modifies this
      ensures rounds == Fight(player, npc, old(currHP), old(npcCurrHP), rolls)
      ensures rounds != [] && rounds[|rounds| - 1].over ==> currHP == AfterFight(rounds[|rounds| - 1].currHP, maxHP)
      ensures rounds != [] && !rounds[|rounds| - 1].over ==> currHP == rounds[|rounds| - 1].currHP
    {
      rounds := [];
      ghost var all := Fight(player, npc, currHP, npcCurrHP, rolls);
      for i := 0 to |rolls|
        invariant |rounds| == i && forall k :: 0 <= k < i ==> !rounds[k].over
        invariant all == rounds + Fight(player, npc, currHP, npcCurrHP, rolls[i..])
        invariant rounds != [] ==> currHP == rounds[|rounds| - 1].currHP
      {
        ghost var hp, nhp := currHP, npcCurrHP;
        var rep, over := CalcRound(rolls[i]);
        var o := Outcome(currHP, npcCurrHP, over, rep);
        FightTurn(player, npc, hp, nhp, rolls, i, rounds);
        rounds := rounds + [o];
        if over {
          if currHP <= 0 {
            currHP := if maxHP <= 0 then 0 else (maxHP + 1) / 2;
          }
          return;
        }
      }
    }
  }

  /** Playing round i of what is left, behind the rounds played already. */
  lemma FightTurn(p: Fighter, n: Fighter, currHP: int, npcHP: int, rolls: seq<Rolls>, i: nat, before: seq<Outcome>)
    requires i < |rolls|
    ensures var o := Round(p, n, currHP, npcHP, rolls[i]);
      before + Fight(p, n, currHP, npcHP, rolls[i..]) ==
      before + [o] + (if o.over then [] else Fight(p, n, o.currHP, o.npcHP, rolls[i + 1..]))
  {
    assert rolls[i..][1..] == rolls[i + 1..];
  }

  // ---- How long a fight can last ----

  function PlayerHits(rounds: seq<Outcome>): nat {
    if rounds == [] then 0 else PlayerHits(rounds[..|rounds| - 1]) + (if rounds[|rounds| - 1].report.playerDealt != 0 then 1 else 0)
  }

  function NPCHits(rounds: seq<Outcome>): nat {
    if rounds == [] then 0 else NPCHits(rounds[..|rounds| - 1]) + (if rounds[|rounds| - 1].report.npcDealt != 0 then 1 else 0)
  }

  ghost predicate AllLegal(p: Fighter, n: Fighter, rolls: seq<Rolls>) {
    forall i :: 0 <= i < |rolls| ==> Legal(p, n, rolls[i])
  }

  // A fight read off the end, one fact at a time.

  lemma FightRest(p: Fighter, n: Fighter, currHP: int, npcHP: int, rolls: seq<Rolls>, k: nat)
    requires rolls != [] && k + 1 < |Fight(p, n, currHP, npcHP, rolls)|
    ensures var o := Round(p, n, currHP, npcHP, rolls[0]); var rest := Fight(p, n, o.currHP, o.npcHP, rolls[1..]);
      !o.over && k < |rest| && Fight(p, n, currHP, npcHP, rolls)[k + 1] == rest[k] && |rest| + 1 == |Fight(p, n, currHP, npcHP, rolls)|
  {
  }

  lemma FightFirst(p: Fighter, n: Fighter, currHP: int, npcHP: int, rolls: seq<Rolls>)
    requires Fight(p, n, currHP, npcHP, rolls) != []
    ensures rolls != [] && Fight(p, n, currHP, npcHP, rolls)[0] == Round(p, n, currHP, npcHP, rolls[0])
  {
  }

  lemma {:induction false} FightLength(p: Fighter, n: Fighter, currHP: int, npcHP: int, rolls: seq<Rolls>)
    ensures |Fight(p, n, currHP, npcHP, rolls)| <= |rolls|
    decreases |rolls|
  {
    if rolls != [] {
      var o := Round(p, n, currHP, npcHP, rolls[0]);
      FightLength(p, n, o.currHP, o.npcHP, rolls[1..]);
    }
  }

  function HPBefore(currHP: int, f: seq<Outcome>, k: nat): int
    requires k <= |f|
  {
    if k == 0 then currHP else f[k - 1].currHP
  }

  function NpcBefore(npcHP: int, f: seq<Outcome>, k: nat): int
    requires k <= |f|
  {
    if k == 0 then npcHP else f[k - 1].npcHP
  }

  /** Every round starts from what the one before left. */
  lemma {:induction false} FightChains(p: Fighter, n: Fighter, currHP: int, npcHP: int, rolls: seq<Rolls>, k: nat)
    requires k < |Fight(p, n, currHP, npcHP, rolls)|
    ensures var f := Fight(p, n, currHP, npcHP, rolls);
      |f| <= |rolls| && f[k] == Round(p, n, HPBefore(currHP, f, k), NpcBefore(npcHP, f, k), rolls[k])
    decreases k
  {
    FightLength(p, n, currHP, npcHP, rolls);
    FightFirst(p, n, currHP, npcHP, rolls);
    if k > 0 {
      var o := Round(p, n, currHP, npcHP, rolls[0]);
      FightRest(p, n, currHP, npcHP, rolls, k - 1);
      FightChains(p, n, o.currHP, o.npcHP, rolls[1..], k - 1);
      if k > 1 {
        FightRest(p, n, currHP, npcHP, rolls, k - 2);
      }
    }
  }

  /** Every round but the last leaves the fight going on. */
  lemma {:induction false} FightGoesOn(p: Fighter, n: Fighter, currHP: int, npcHP: int, rolls: seq<Rolls>, k: nat)
    requires k + 1 < |Fight(p, n, currHP, npcHP, rolls)|
    ensures !Fight(p, n, currHP, npcHP, rolls)[k].over
    decreases k
  {
    FightFirst(p, n, currHP, npcHP, rolls);
    FightRest(p, n, currHP, npcHP, rolls, k);
    if k > 0 {
      var o := Round(p, n, currHP, npcHP, rolls[0]);
      FightRest(p, n, currHP, npcHP, rolls, k - 1);
      FightGoesOn(p, n, o.currHP, o.npcHP, rolls[1..], k - 1);
    }
  }

  // ---- Fights in which the player's skill may grow ----

  /** Round k of f, by a player of that strength and any skill at the time. */
  ghost predicate RoundAt(strength: int, n: Fighter, currHP: int, npcHP: int, f: seq<Outcome>, k: nat)
    requires k < |f|
  {
    && (k + 1 < |f| ==> !f[k].over)
    && exists p: Fighter, r: Rolls :: p.strength == strength && Legal(p, n, r)
                      && f[k] == Round(p, n, HPBefore(currHP, f, k), NpcBefore(npcHP, f, k), r)
  }

  /** The rounds of one fight so far. */
  ghost predicate Played(strength: int, n: Fighter, currHP: int, npcHP: int, f: seq<Outcome>) {
    forall k :: 0 <= k < |f| ==> RoundAt(strength, n, currHP, npcHP, f, k)
  }

  /** What the fight loop plays is a fight. */
  lemma FightIsPlayed(p: Fighter, n: Fighter, currHP: int, npcHP: int, rolls: seq<Rolls>)
    requires AllLegal(p, n, rolls)
    ensures Played(p.strength, n, currHP, npcHP, Fight(p, n, currHP, npcHP, rolls))
  {
    var f := Fight(p, n, currHP, npcHP, rolls);
    forall k | 0 <= k < |f| ensures RoundAt(p.strength, n, currHP, npcHP, f, k) {
      FightChains(p, n, currHP, npcHP, rolls, k);
      if k + 1 < |f| {
        FightGoesOn(p, n, currHP, npcHP, rolls, k);
      }
    }
  }

  ghost predicate Standing(currHP: int, npcHP: int) {
    currHP > 0 && npcHP > 0
  }

  /** While a fight goes on both sides stand. */
  lemma {:induction false} BothStand(strength: int, n: Fighter, currHP: int, npcHP: int, f: seq<Outcome>, k: nat)
    requires Played(strength, n, currHP, npcHP, f) && Standing(currHP, npcHP) && strength >= 0 && n.strength >= 0
    requires k <= |f| && (k > 0 ==> !f[k - 1].over)
    ensures Standing(HPBefore(currHP, f, k), NpcBefore(npcHP, f, k))
    decreases k
  {
    if k > 0 {
      assert RoundAt(strength, n, currHP, npcHP, f, k - 1);
      if k > 1 {
        assert RoundAt(strength, n, currHP, npcHP, f, k - 2);
      }
      BothStand(strength, n, currHP, npcHP, f, k - 1);
      var p: Fighter, r: Rolls :| p.strength == strength && Legal(p, n, r)
                  && f[k - 1] == Round(p, n, HPBefore(currHP, f, k - 1), NpcBefore(npcHP, f, k - 1), r);
      RoundIsFair(p, n, HPBefore(currHP, f, k - 1), NpcBefore(npcHP, f, k - 1), r);
    }
  }

  /** What one round that does not end the fight costs. */
  lemma RoundCosts(strength: int, n: Fighter, currHP: int, npcHP: int, f: seq<Outcome>, k: nat)
    requires Played(strength, n, currHP, npcHP, f) && Standing(currHP, npcHP) && strength >= 0 && n.strength >= 0
    requires k < |f| && !f[k].over
    ensures f[k].npcHP + (if f[k].report.playerDealt != 0 then strength + 1 else 0) <= NpcBefore(npcHP, f, k)
    ensures f[k].currHP + (if f[k].report.npcDealt != 0 then n.strength + 1 else 0) <= HPBefore(currHP, f, k)
  {
    assert RoundAt(strength, n, currHP, npcHP, f, k);
    if k > 0 {
      assert RoundAt(strength, n, currHP, npcHP, f, k - 1);
    }
    BothStand(strength, n, currHP, npcHP, f, k);
    var p: Fighter, r: Rolls :| p.strength == strength && Legal(p, n, r)
                && f[k] == Round(p, n, HPBefore(currHP, f, k), NpcBefore(npcHP, f, k), r);
    RoundIsFair(p, n, HPBefore(currHP, f, k), NpcBefore(npcHP, f, k), r);
  }

  /** Every landed hit costs at least strength + 1, so while the fight goes on the hits so
      far have not yet added up to the HP they are taken from. */
  lemma {:induction false} HitsAddUp(strength: int, n: Fighter, currHP: int, npcHP: int, f: seq<Outcome>, k: nat)
    requires Played(strength, n, currHP, npcHP, f) && Standing(currHP, npcHP) && strength >= 0 && n.strength >= 0
    requires k <= |f| && (k > 0 ==> !f[k - 1].over)
    ensures PlayerHits(f[..k]) * (strength + 1) + NpcBefore(npcHP, f, k) <= npcHP
    ensures NPCHits(f[..k]) * (n.strength + 1) + HPBefore(currHP, f, k) <= currHP
    decreases k
  {
    if k > 0 {
      if k > 1 {
        assert RoundAt(strength, n, currHP, npcHP, f, k - 2);
      }
      HitsAddUp(strength, n, currHP, npcHP, f, k - 1);
      RoundCosts(strength, n, currHP, npcHP, f, k - 1);
      assert f[..k][..k - 1] == f[..k - 1];
      OneMore(PlayerHits(f[..k - 1]), strength + 1);
      OneMore(NPCHits(f[..k - 1]), n.strength + 1);
    }
  }

  lemma OneMore(a: int, b: int)
    ensures (a + 1) * b == a * b + b
  {
  }

  /** By the time the player has landed ceil(npcHP / (strength + 1)) hits, or the NPC as many
      by its own measure, the fight is over. */
  ghost predicate HitsEnough(strength: int, n: Fighter, currHP: int, npcHP: int, f: seq<Outcome>)
    requires strength >= 0 && n.strength >= 0
  {
    PlayerHits(f) >= (npcHP + strength) / (strength + 1) || NPCHits(f) >= (currHP + n.strength) / (n.strength + 1)
  }

  /** No fight outlasts the landed hits either side can take, however the player's skill
      grows meanwhile. */
  lemma PlayedIsShort(strength: int, n: Fighter, currHP: int, npcHP: int, f: seq<Outcome>)
    requires Played(strength, n, currHP, npcHP, f) && Standing(currHP, npcHP) && strength >= 0 && n.strength >= 0
    requires HitsEnough(strength, n, currHP, npcHP, f)
    ensures f != [] && f[|f| - 1].over
  {
    if f == [] || !f[|f| - 1].over {
      HitsAddUp(strength, n, currHP, npcHP, f, |f|);
      BothStand(strength, n, currHP, npcHP, f, |f|);
      assert f[..|f|] == f;
      TooFew(PlayerHits(f), npcHP, strength + 1);
      TooFew(NPCHits(f), currHP, n.strength + 1);
    }
  }

  lemma FightIsShort(p: Fighter, n: Fighter, currHP: int, npcHP: int, rolls: seq<Rolls>)
    requires AllLegal(p, n, rolls) && Standing(currHP, npcHP) && p.strength >= 0 && n.strength >= 0
    requires HitsEnough(p.strength, n, currHP, npcHP, Fight(p, n, currHP, npcHP, rolls))
    ensures var f := Fight(p, n, currHP, npcHP, rolls); f != [] && f[|f| - 1].over
  {
    FightIsPlayed(p, n, currHP, npcHP, rolls);
    PlayedIsShort(p.strength, n, currHP, npcHP, Fight(p, n, currHP, npcHP, rolls));
  }

  /** Hits that cost less than the HP are fewer than its share. */
  lemma TooFew(hits: nat, hp: int, cost: int)
    requires cost >= 1 && hits * cost < hp
    ensures hits < (hp + cost - 1) / cost
  {
    var c := (hp + cost - 1) / cost;
    assert c * cost + (hp + cost - 1) % cost == hp + cost - 1;
    if c <= hits {
      Grows(c, hits, cost);
    }
  }

  lemma Grows(a: int, b: int, cost: int)
    requires a <= b && cost >= 0
    ensures a * cost <= b * cost
  {
    assert (b - a) * cost >= 0;
  }
}
