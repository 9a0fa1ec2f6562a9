/** Why healers and enemies must stay apart: in every world where a player can walk to both in
    one zone, some run leaves a player in a fight and not engaged. */
module HealedInFight {
  import opened Wrappers
  import opened Combat
  import opened FightProtocol
  import opened FightSafety

  lemma ReachAttack(w: World, s: State, s': State, p: Name)
    requires Reachable(w, s) && p in s.players && InAttack(s.players[p].pc) && PointsToFight(s, s.players[p].pc)
    requires s' == RunAttack(w, s, p)
    ensures Reachable(w, s')
  {
    ReachNext(w, s, s', Run(p));
  }

  lemma ReachTalk(w: World, s: State, s': State, p: Name)
    requires Reachable(w, s) && p in s.players && InTalk(s.players[p].pc) && s' == RunTalk(w, s, p)
    ensures Reachable(w, s')
  {
    ReachNext(w, s, s', Run(p));
  }

  lemma ReachMove(w: World, s: State, s': State, p: Name)
    requires Reachable(w, s) && p in s.players && InMove(s.players[p].pc) && s' == RunMove(w, s, p)
    ensures Reachable(w, s')
  {
    ReachNext(w, s, s', Run(p));
  }

  lemma ReachFight(w: World, s: State, s': State, f: nat)
    requires Reachable(w, s) && f < |s.fights| == |s'.fights| && s.fights[f].pc != Waiting && s.fights[f].player in s.players
    requires s' == FightStep(s, f) && s'.fights[f] != s.fights[f]
    ensures Reachable(w, s')
  {
    ReachNext(w, s, s', RunFight(f));
  }

  /** The state with one player online, standing in its zone. */
  function Solo(w: World, p: Name, me: Player, occupied: set<NpcId>, ongoing: map<Name, nat>, fights: seq<Fight>): State {
    State(map[p := me], (map z | z in w.zones :: if z == me.loc then {p} else {}), occupied, ongoing, fights)
  }

  /** Between commands and in no fight, with the fights behind it. */
  function Free(w: World, p: Name, z: ZoneId, hp: int, st: Status, past: seq<Fight>): State {
    Solo(w, p, Player(Idle, z, hp, st), {}, map[], past)
  }

  lemma SoloJoins(w: World, p: Name)
    requires w.Ok()
    ensures Reachable(w, Free(w, p, w.start, MAX_HP, Healthy, []))
  {
    var s0, s1 := Init(w), Free(w, p, w.start, MAX_HP, Healthy, []);
    assert IsRun(w, [s0]) && [s0][|[s0]| - 1] == s0;
    var none: set<Name> := {};
    assert none + {p} == {p};
    assert s1.inZone == Enter(s0, w.start, p).inZone;
    ReachNext(w, s0, s1, Connect(p));
  }

  // ---- Walking there ----

  ghost predicate IsPath(w: World, path: seq<ZoneId>, a: ZoneId) {
    && path != [] && path[0] == a
    && forall i :: 0 <= i < |path| - 1 ==> ExitLeads(w, path[i], path[i + 1])
  }

  ghost predicate ExitLeads(w: World, a: ZoneId, b: ZoneId) {
    a in w.exits && b in w.exits[a]
  }

  ghost predicate Walkable(w: World, a: ZoneId, z: ZoneId) {
    exists path :: IsPath(w, path, a) && path[|path| - 1] == z
  }

  /** The same player in no zone's list, on the way from one to another. */
  function Nowhere(w: World, p: Name, me: Player, past: seq<Fight>): State {
    State(map[p := me], (map z | z in w.zones :: {}), {}, map[], past)
  }

  lemma LeavesNobody(w: World, p: Name, me: Player, past: seq<Fight>)
    requires me.loc in w.zones
    ensures Leave(Solo(w, p, me, {}, map[], past), me.loc, p) == Nowhere(w, p, me, past)
  {
    var s, t := Solo(w, p, me, {}, map[], past), Nowhere(w, p, me, past);
    var none: set<Name> := {};
    assert {p} - {p} == none;
    forall z | z in w.zones ensures Leave(s, me.loc, p).inZone[z] == t.inZone[z] {
    }
    assert Leave(s, me.loc, p).inZone == t.inZone;
  }

  lemma SoloShifts(w: World, p: Name, a: ZoneId, b: ZoneId, hp: int, st: Status, past: seq<Fight>)
    requires w.Ok() && a in w.zones && b in w.zones
    requires Reachable(w, Solo(w, p, Player(ShiftOut(b), a, hp, st), {}, map[], past))
    ensures Reachable(w, Free(w, p, b, hp, st, past))
  {
    var s2 := Solo(w, p, Player(ShiftOut(b), a, hp, st), {}, map[], past);
    LeavesNobody(w, p, Player(ShiftOut(b), a, hp, st), past);
    var s3 := Nowhere(w, p, Player(ShiftLoc(b), a, hp, st), past);
    ReachMove(w, s2, s3, p);
    var s4 := Nowhere(w, p, Player(ShiftIn(b), b, hp, st), past);
    ReachMove(w, s3, s4, p);
    var s5 := Free(w, p, b, hp, st, past);
    var none: set<Name> := {};
    assert none + {p} == {p};
    assert s5.inZone == Enter(s4, b, p).inZone;
    ReachMove(w, s4, s5, p);
  }

  lemma SoloMoves(w: World, p: Name, a: ZoneId, b: ZoneId, hp: int, st: Status, past: seq<Fight>)
    requires w.Ok() && a in w.zones && ExitLeads(w, a, b) && Reachable(w, Free(w, p, a, hp, st, past))
    ensures b in w.zones && Reachable(w, Free(w, p, b, hp, st, past))
  {
    var s0 := Free(w, p, a, hp, st, past);
    var s1 := Solo(w, p, Player(MoveGate(b), a, hp, st), {}, map[], past);
    assert s1 == Goto(s0, p, MoveGate(b));
    ReachNext(w, s0, s1, Begin(p, Move(b)));
    var s2 := Solo(w, p, Player(ShiftOut(b), a, hp, st), {}, map[], past);
    ReachMove(w, s1, s2, p);
    SoloShifts(w, p, a, b, hp, st, past);
  }

  lemma {:induction false} SoloWalks(w: World, p: Name, path: seq<ZoneId>, n: nat, hp: int, st: Status, past: seq<Fight>)
    requires w.Ok() && n < |path| && IsPath(w, path, path[0]) && path[0] in w.zones
    requires Reachable(w, Free(w, p, path[0], hp, st, past))
    ensures path[n] in w.zones && Reachable(w, Free(w, p, path[n], hp, st, past))
  {
    if n > 0 {
      SoloWalks(w, p, path, n - 1, hp, st, past);
      assert ExitLeads(w, path[n - 1], path[n - 1 + 1]);
      SoloMoves(w, p, path[n - 1], path[n], hp, st, past);
    }
  }

  lemma SoloArrives(w: World, p: Name, a: ZoneId, z: ZoneId, hp: int, st: Status, past: seq<Fight>)
    requires w.Ok() && a in w.zones && Walkable(w, a, z) && Reachable(w, Free(w, p, a, hp, st, past))
    ensures z in w.zones && Reachable(w, Free(w, p, z, hp, st, past))
  {
    var path :| IsPath(w, path, a) && path[|path| - 1] == z;
    SoloWalks(w, p, path, |path| - 1, hp, st, past);
  }

  // ---- Fighting there ----

  /** Where a fight can be had: an enemy in the zone, and a player there who is free. */
  ghost predicate Facing(w: World, p: Name, n: NpcId, z: ZoneId, hp: int, st: Status, past: seq<Fight>) {
    && w.Ok() && n in w.hostile && n in w.npcZone && w.npcZone[n] == z && st != Engaged
    && Reachable(w, Free(w, p, z, hp, st, past))
  }

  /** Taken up with its last fight. */
  function InFight(w: World, p: Name, pc: PC, z: ZoneId, hp: int, past: seq<Fight>, fight: Fight): State {
    Solo(w, p, Player(pc, z, hp, Engaged), {fight.npc}, map[p := |past|], past + [fight])
  }

  lemma SetLast(past: seq<Fight>, a: Fight, b: Fight)
    ensures (past + [a])[|past| := b] == past + [b]
  {
  }

  lemma SoloTurns(w: World, p: Name, n: NpcId, z: ZoneId, hp: int, st: Status, past: seq<Fight>)
    requires Facing(w, p, n, z, hp, st, past)
    ensures Reachable(w, Solo(w, p, Player(AtkStatus(n), z, hp, st), {}, map[], past))
  {
    var s0 := Free(w, p, z, hp, st, past);
    var s1 := Solo(w, p, Player(AtkStatus(n), z, hp, st), {}, map[], past);
    assert s1 == Goto(s0, p, AtkStatus(n));
    ReachNext(w, s0, s1, Begin(p, Attack(n)));
  }

  lemma SoloAttacks(w: World, p: Name, n: NpcId, z: ZoneId, hp: int, st: Status, past: seq<Fight>)
    requires Facing(w, p, n, z, hp, st, past)
    ensures Reachable(w, Solo(w, p, Player(AtkRegister(n), z, hp, st), {n}, map[], past))
  {
    SoloTurns(w, p, n, z, hp, st, past);
    var s1 := Solo(w, p, Player(AtkStatus(n), z, hp, st), {}, map[], past);
    var s2 := Solo(w, p, Player(AtkOccupy(n), z, hp, st), {}, map[], past);
    ReachAttack(w, s1, s2, p);
    var s3 := Solo(w, p, Player(AtkRegister(n), z, hp, st), {n}, map[], past);
    ReachAttack(w, s2, s3, p);
  }

  lemma SoloRegisters(w: World, p: Name, n: NpcId, z: ZoneId, hp: int, st: Status, past: seq<Fight>)
    requires Facing(w, p, n, z, hp, st, past)
    ensures Reachable(w, InFight(w, p, AtkSpawn(|past|), z, hp, past, Fight(p, n, w.hostile[n].hp, Created, false, 0, 0)))
  {
    SoloAttacks(w, p, n, z, hp, st, past);
    var fight := Fight(p, n, w.hostile[n].hp, Created, false, 0, 0);
    var s0 := Solo(w, p, Player(AtkRegister(n), z, hp, st), {n}, map[], past);
    var s1 := Solo(w, p, Player(AtkEngage(|past|), z, hp, st), {n}, map[p := |past|], past + [fight]);
    ReachAttack(w, s0, s1, p);
    ReachAttack(w, s1, InFight(w, p, AtkSpawn(|past|), z, hp, past, fight), p);
  }

  lemma SoloFights(w: World, p: Name, n: NpcId, z: ZoneId, hp: int, st: Status, past: seq<Fight>)
    requires Facing(w, p, n, z, hp, st, past)
    ensures Reachable(w, InFight(w, p, AtkSend(|past|), z, hp, past, Fight(p, n, w.hostile[n].hp, Waiting, false, 0, 0)))
  {
    SoloRegisters(w, p, n, z, hp, st, past);
    var fight := Fight(p, n, w.hostile[n].hp, Created, false, 0, 0);
    var started, waiting := fight.(pc := Started), fight.(pc := Waiting);
    SetLast(past, fight, started);
    ReachAttack(w, InFight(w, p, AtkSpawn(|past|), z, hp, past, fight), InFight(w, p, AtkSend(|past|), z, hp, past, started), p);
    SetLast(past, started, waiting);
    ReachFight(w, InFight(w, p, AtkSend(|past|), z, hp, past, started), InFight(w, p, AtkSend(|past|), z, hp, past, waiting), |past|);
  }

  lemma SoloSends(w: World, p: Name, n: NpcId, z: ZoneId, hp: int, st: Status, past: seq<Fight>)
    requires Facing(w, p, n, z, hp, st, past)
    ensures Reachable(w, InFight(w, p, AtkAwait(|past|), z, hp, past, Fight(p, n, w.hostile[n].hp, Computing, false, 1, 0)))
  {
    SoloFights(w, p, n, z, hp, st, past);
    var fight := Fight(p, n, w.hostile[n].hp, Waiting, false, 0, 0);
    var computing := fight.(pc := Computing, sends := 1);
    var s0, s1 := InFight(w, p, AtkSend(|past|), z, hp, past, fight), InFight(w, p, AtkAwait(|past|), z, hp, past, computing);
    SetLast(past, fight, computing);
    assert s1 == Goto(s0, p, AtkAwait(|past|)).(fights := s0.fights[|past| := computing]);
    ReachNext(w, s0, s1, Send(p));
  }

  /** The first round of a fight. */
  lemma SoloRolls(w: World, p: Name, n: NpcId, z: ZoneId, hp: int, st: Status, past: seq<Fight>, fighter: Fighter, r: Rolls)
    requires Facing(w, p, n, z, hp, st, past) && IsPlayer(fighter) && Legal(fighter, w.hostile[n].stats, r)
    ensures var o := Round(fighter, w.hostile[n].stats, hp, w.hostile[n].hp, r);
            Reachable(w, InFight(w, p, AtkAwait(|past|), z, o.currHP, past,
                                 Fight(p, n, o.npcHP, if o.over then FreeNpc(o) else Deliver(o), false, 1, 0)))
  {
    SoloSends(w, p, n, z, hp, st, past);
    var o := Round(fighter, w.hostile[n].stats, hp, w.hostile[n].hp, r);
    var fight := Fight(p, n, w.hostile[n].hp, Computing, false, 1, 0);
    var rolled := Fight(p, n, o.npcHP, if o.over then FreeNpc(o) else Deliver(o), false, 1, 0);
    var s1, s2 := InFight(w, p, AtkAwait(|past|), z, hp, past, fight), InFight(w, p, AtkAwait(|past|), z, o.currHP, past, rolled);
    SetLast(past, fight, rolled);
    assert s2 == RollStep(w, s1, |past|, fighter, r);
    ReachNext(w, s1, s2, Roll(|past|, fighter, r));
  }

  lemma SoloAnswered(w: World, p: Name, me: Player, occupied: set<NpcId>, ongoing: map<Name, nat>, o: Outcome,
                     past: seq<Fight>, fight: Fight)
    requires fight.player == p && fight.pc == Deliver(o) && me.pc == AtkAwait(|past|)
    requires Reachable(w, Solo(w, p, me, occupied, ongoing, past + [fight]))
    ensures Reachable(w, Solo(w, p, me.(pc := AtkReply(o)), occupied, ongoing,
                              past + [fight.(pc := if o.over then Done else Waiting, results := fight.results + 1)]))
  {
    var after := fight.(pc := if o.over then Done else Waiting, results := fight.results + 1);
    var s1, s2 := Solo(w, p, me, occupied, ongoing, past + [fight]), Solo(w, p, me.(pc := AtkReply(o)), occupied, ongoing, past + [after]);
    SetLast(past, fight, after);
    assert s2 == Goto(s1, p, AtkReply(o)).(fights := s1.fights[|past| := after]);
    ReachNext(w, s1, s2, Answer(|past|));
  }

  lemma SoloGoesOn(w: World, p: Name, z: ZoneId, o: Outcome, past: seq<Fight>, fight: Fight)
    requires fight.player == p && fight.pc == Deliver(o) && !o.over && o.report.playerHP > 0
    requires Reachable(w, InFight(w, p, AtkAwait(|past|), z, o.currHP, past, fight))
    ensures Reachable(w, InFight(w, p, Idle, z, o.currHP, past, fight.(pc := Waiting, results := fight.results + 1)))
  {
    var after := fight.(pc := Waiting, results := fight.results + 1);
    SoloAnswered(w, p, Player(AtkAwait(|past|), z, o.currHP, Engaged), {fight.npc}, map[p := |past|], o, past, fight);
    ReachAttack(w, InFight(w, p, AtkReply(o), z, o.currHP, past, after), InFight(w, p, Idle, z, o.currHP, past, after), p);
  }

  /** One round that leaves both sides standing. */
  lemma SoloRound(w: World, p: Name, n: NpcId, z: ZoneId, hp: int, st: Status, past: seq<Fight>, fighter: Fighter, r: Rolls)
    requires Facing(w, p, n, z, hp, st, past) && IsPlayer(fighter) && Legal(fighter, w.hostile[n].stats, r)
    requires var o := Round(fighter, w.hostile[n].stats, hp, w.hostile[n].hp, r); !o.over && o.report.playerHP > 0
    ensures var o := Round(fighter, w.hostile[n].stats, hp, w.hostile[n].hp, r);
            Reachable(w, InFight(w, p, Idle, z, o.currHP, past, Fight(p, n, o.npcHP, Waiting, false, 1, 1)))
  {
    SoloRolls(w, p, n, z, hp, st, past, fighter, r);
    var o := Round(fighter, w.hostile[n].stats, hp, w.hostile[n].hp, r);
    SoloGoesOn(w, p, z, o, past, Fight(p, n, o.npcHP, Deliver(o), false, 1, 0));
  }

  lemma SoloTalks(w: World, p: Name, z: ZoneId, hp: int, h: NpcId, past: seq<Fight>, fight: Fight)
    requires Reachable(w, InFight(w, p, Idle, z, hp, past, fight))
    ensures Reachable(w, InFight(w, p, TalkRead(h), z, hp, past, fight))
  {
    var s0, s1 := InFight(w, p, Idle, z, hp, past, fight), InFight(w, p, TalkRead(h), z, hp, past, fight);
    assert s1 == Goto(s0, p, TalkRead(h));
    ReachNext(w, s0, s1, Begin(p, Talk(h)));
  }

  /** A TALK to a healer in the middle of a fight. */
  lemma SoloHeals(w: World, p: Name, z: ZoneId, hp: int, h: NpcId, past: seq<Fight>, fight: Fight)
    requires h in w.healers && h in w.npcZone && w.npcZone[h] == z && hp < MAX_HP
    requires Reachable(w, InFight(w, p, Idle, z, hp, past, fight))
    ensures Reachable(w, Solo(w, p, Player(Idle, z, MAX_HP, Healthy), {fight.npc}, map[p := |past|], past + [fight]))
  {
    SoloTalks(w, p, z, hp, h, past, fight);
    var s1 := InFight(w, p, TalkRead(h), z, hp, past, fight);
    var s2 := InFight(w, p, HealHP, z, hp, past, fight);
    ReachTalk(w, s1, s2, p);
    var s3 := InFight(w, p, HealStatus, z, MAX_HP, past, fight);
    ReachTalk(w, s2, s3, p);
    var s4 := Solo(w, p, Player(Idle, z, MAX_HP, Healthy), {fight.npc}, map[p := |past|], past + [fight]);
    ReachTalk(w, s3, s4, p);
  }

  // ---- Losing there, and coming back hurt ----

  lemma SoloUnregisters(w: World, p: Name, z: ZoneId, o: Outcome, past: seq<Fight>, fight: Fight)
    requires fight.player == p && fight.pc == FreeNpc(o)
    requires Reachable(w, InFight(w, p, AtkAwait(|past|), z, o.currHP, past, fight))
    ensures Reachable(w, Solo(w, p, Player(AtkAwait(|past|), z, o.currHP, Engaged), {}, map[], past + [fight.(pc := FixHP(o))]))
  {
    var freed, gone := fight.(pc := Unregister(o)), fight.(pc := FixHP(o));
    var me := Player(AtkAwait(|past|), z, o.currHP, Engaged);
    var s1, s2 := InFight(w, p, AtkAwait(|past|), z, o.currHP, past, fight), Solo(w, p, me, {}, map[p := |past|], past + [freed]);
    SetLast(past, fight, freed);
    assert {fight.npc} - {fight.npc} == {};
    ReachFight(w, s1, s2, |past|);
    SetLast(past, freed, gone);
    assert map[p := |past|] - {p} == map[];
    ReachFight(w, s2, Solo(w, p, me, {}, map[], past + [gone]), |past|);
  }

  lemma SoloRevives(w: World, p: Name, z: ZoneId, o: Outcome, past: seq<Fight>, fight: Fight)
    requires fight.player == p && fight.pc == FixHP(o) && o.currHP <= 0
    requires Reachable(w, Solo(w, p, Player(AtkAwait(|past|), z, o.currHP, Engaged), {}, map[], past + [fight]))
    ensures Reachable(w, Solo(w, p, Player(AtkAwait(|past|), z, 50, Weakened), {}, map[], past + [fight.(pc := Deliver(o))]))
  {
    var mended, done := fight.(pc := FixStatus(o)), fight.(pc := Deliver(o));
    var s1 := Solo(w, p, Player(AtkAwait(|past|), z, o.currHP, Engaged), {}, map[], past + [fight]);
    var s2 := Solo(w, p, Player(AtkAwait(|past|), z, 50, Engaged), {}, map[], past + [mended]);
    SetLast(past, fight, mended);
    ReachFight(w, s1, s2, |past|);
    SetLast(past, mended, done);
    ReachFight(w, s2, Solo(w, p, Player(AtkAwait(|past|), z, 50, Weakened), {}, map[], past + [done]), |past|);
  }

  lemma SoloRespawns(w: World, p: Name, z: ZoneId, o: Outcome, past: seq<Fight>, fight: Fight)
    requires w.Ok() && z in w.zones && fight.player == p && fight.pc == Deliver(o) && o.over && o.report.playerHP <= 0
    requires Reachable(w, Solo(w, p, Player(AtkAwait(|past|), z, 50, Weakened), {}, map[], past + [fight]))
    ensures Reachable(w, Free(w, p, w.respawn, 50, Weakened, past + [fight.(pc := Done, results := fight.results + 1)]))
  {
    var over := fight.(pc := Done, results := fight.results + 1);
    SoloAnswered(w, p, Player(AtkAwait(|past|), z, 50, Weakened), {}, map[], o, past, fight);
    ReachAttack(w, Solo(w, p, Player(AtkReply(o), z, 50, Weakened), {}, map[], past + [over]), Solo(w, p, Player(ShiftOut(w.respawn), z, 50, Weakened), {}, map[], past + [over]), p);
    SoloShifts(w, p, z, w.respawn, 50, Weakened, past + [over]);
  }

  /** One round that fells the player. */
  lemma SoloLoses(w: World, p: Name, n: NpcId, z: ZoneId, hp: int, st: Status, fighter: Fighter, r: Rolls) returns (past: seq<Fight>)
    requires Facing(w, p, n, z, hp, st, []) && IsPlayer(fighter) && Legal(fighter, w.hostile[n].stats, r)
    requires var o := Round(fighter, w.hostile[n].stats, hp, w.hostile[n].hp, r); o.over && o.currHP <= 0 && o.report.playerHP <= 0
    ensures Reachable(w, Free(w, p, w.respawn, 50, Weakened, past))
  {
    SoloRolls(w, p, n, z, hp, st, [], fighter, r);
    var o := Round(fighter, w.hostile[n].stats, hp, w.hostile[n].hp, r);
    var fight := Fight(p, n, o.npcHP, FreeNpc(o), false, 1, 0);
    SoloUnregisters(w, p, z, o, [], fight);
    SoloRevives(w, p, z, o, [], fight.(pc := FixHP(o)));
    SoloRespawns(w, p, z, o, [], fight.(pc := Deliver(o)));
    past := [] + [fight.(pc := Done, results := 1)];
  }

  // ---- The exact condition ----

  ghost predicate Usable(e: Enemy) {
    e.hp > 0 && e.stats.strength >= 1 && e.stats.battleSkill >= 1
  }

  /** Unless each of its hits is deadly, an enemy that outlasts a blow can hurt a player in good
      health and both go on. */
  lemma HurtingRound(e: Enemy) returns (fighter: Fighter, r: Rolls)
    requires Usable(e) && Outlasts(e) && e.stats.strength <= 98
    ensures IsPlayer(fighter) && Legal(fighter, e.stats, r)
    ensures var o := Round(fighter, e.stats, MAX_HP, e.hp, r); !o.over && 0 < o.report.playerHP && o.currHP < MAX_HP
  {
    fighter := Fighter(7, 7, 10);
    r := Rolls(1, 6, 100, 1, 1, if e.stats.dexterity >= 1 then 1 else 100);
  }

  lemma DeadlyRound(e: Enemy) returns (fighter: Fighter, r: Rolls)
    requires Usable(e) && e.stats.strength > 98
    ensures IsPlayer(fighter) && Legal(fighter, e.stats, r)
    ensures var o := Round(fighter, e.stats, MAX_HP, e.hp, r); o.over && o.currHP <= 0 && o.report.playerHP <= 0
  {
    fighter := Fighter(7, 7, 10);
    r := Rolls(1, 1, 100, 1, 6, 1);
  }

  /** The player can dodge in any case. */
  lemma DodgingRound(e: Enemy, hp: int) returns (fighter: Fighter, r: Rolls)
    requires Usable(e) && Outlasts(e) && hp > 0
    ensures IsPlayer(fighter) && Legal(fighter, e.stats, r)
    ensures var o := Round(fighter, e.stats, hp, e.hp, r); !o.over && 0 < o.report.playerHP && o.currHP == hp
  {
    fighter := Fighter(7, 7, 10);
    r := Rolls(1, 6, 1, 1, 1, if e.stats.dexterity >= 1 then 1 else 100);
  }

  /** In a fight that goes on, hurt: from a hit, or else from a fight lost before. */
  lemma SoloIsHurt(w: World, p: Name, e: NpcId, z: ZoneId) returns (hp: int, past: seq<Fight>, fight: Fight)
    requires w.Ok() && e in w.hostile && e in w.npcZone && w.npcZone[e] == z && Outlasts(w.hostile[e])
    requires Walkable(w, w.start, z) && (Walkable(w, w.respawn, z) || w.hostile[e].stats.strength <= 98)
    ensures hp < MAX_HP && Reachable(w, InFight(w, p, Idle, z, hp, past, fight))
  {
    var enemy := w.hostile[e];
    SoloJoins(w, p);
    SoloArrives(w, p, w.start, z, MAX_HP, Healthy, []);
    if enemy.stats.strength <= 98 {
      var fighter, r := HurtingRound(enemy);
      SoloRound(w, p, e, z, MAX_HP, Healthy, [], fighter, r);
      var o := Round(fighter, enemy.stats, MAX_HP, enemy.hp, r);
      hp, past, fight := o.currHP, [], Fight(p, e, o.npcHP, Waiting, false, 1, 1);
    } else {
      var fighter, r := DeadlyRound(enemy);
      past := SoloLoses(w, p, e, z, MAX_HP, Healthy, fighter, r);
      SoloArrives(w, p, w.respawn, z, 50, Weakened, past);
      fighter, r := DodgingRound(enemy, 50);
      SoloRound(w, p, e, z, 50, Weakened, past, fighter, r);
      var o := Round(fighter, enemy.stats, 50, enemy.hp, r);
      hp, fight := o.currHP, Fight(p, e, o.npcHP, Waiting, false, 1, 1);
    }
  }

  /** Any healer and any such enemy in one zone a player can walk to. */
  lemma HealedInTheMiddle(w: World, p: Name, h: NpcId, e: NpcId) returns (s: State)
    requires w.Ok() && h in w.healers && h in w.npcZone && e in w.hostile && e in w.npcZone && w.npcZone[h] == w.npcZone[e]
    requires Walkable(w, w.start, w.npcZone[e]) && (Walkable(w, w.respawn, w.npcZone[e]) || w.hostile[e].stats.strength <= 98)
    requires Outlasts(w.hostile[e])
    ensures Reachable(w, s) && p in s.players && s.players[p].pc == Idle
    ensures s.players[p].status == Healthy && p in s.ongoing
  {
    var z := w.npcZone[e];
    var hp, past, fight := SoloIsHurt(w, p, e, z);
    SoloHeals(w, p, z, hp, h, past, fight);
    s := Solo(w, p, Player(Idle, z, MAX_HP, Healthy), {fight.npc}, map[p := |past|], past + [fight]);
  }

  /** In every run, between its commands, a player is engaged exactly when it has a fight. */
  ghost predicate AlwaysInStep(w: World) {
    forall s, p :: Reachable(w, s) && p in s.players && s.players[p].pc == Idle ==> InStep(s, p)
  }

  ghost predicate InStep(s: State, p: Name)
    requires p in s.players
  {
    s.players[p].status == Engaged <==> p in s.ongoing
  }

  /** On a map where every zone can be walked to, from the start and from the chapel, status and
      registry agree in every run if and only if no zone holds both a healer and an enemy that
      may outlast a round. */
  lemma ApartExactly(w: World)
    requires w.Ok() && forall z :: z in w.zones ==> Walkable(w, w.start, z) && Walkable(w, w.respawn, z)
    ensures AlwaysInStep(w) <==> w.Apart()
  {
    if w.Apart() {
      forall s, p | Reachable(w, s) && p in s.players && s.players[p].pc == Idle ensures InStep(s, p) {
        AtCommandBoundary(w, s, p);
      }
    } else {
      var h, e :| h in w.healers && e in w.hostile && h in w.npcZone && e in w.npcZone && Outlasts(w.hostile[e]) && w.npcZone[h] == w.npcZone[e];
      var s := HealedInTheMiddle(w, "ann", h, e);
      assert !InStep(s, "ann");
    }
  }
}
