/** What one ATTACK does to its player, from one command boundary to the next, whatever all
    other goroutines do in between: one round of one fight, in every run. */
module AttackCommand {
  import opened Wrappers
  import opened Combat
  import opened FightProtocol
  import opened FightSafety
  import opened FightCommands

  /** The fight that the command plays a round of: the one that was registered, or a new one
      against the NPC named. */
  ghost predicate Plays(w: World, s: State, t: State, p: Name, n: NpcId, f: nat) {
    && p in s.players && p in t.players && f < |t.fights| && t.fights[f].player == p && !t.fights[f].closed && t.fights[f].npc in w.hostile
    && if p in s.ongoing then f == s.ongoing[p] && f < |s.fights| && t.fights[f].npc == s.fights[f].npc
       else f >= |s.fights| && t.fights[f].npc == n && Present(w, s, p, n)
  }

  /** What the fight stood at when the command began: its rounds and the enemy's HP. */
  function RoundsBefore(s: State, p: Name): nat {
    if p in s.ongoing && s.ongoing[p] < |s.fights| then s.fights[s.ongoing[p]].results else 0
  }

  function EnemyBefore(w: World, s: State, p: Name, n: NpcId): int {
    if p in s.ongoing && s.ongoing[p] < |s.fights| then s.fights[s.ongoing[p]].hp else if n in w.hostile then w.hostile[n].hp else 0
  }

  /** What one round between them can come to, from where the command found them. */
  ghost predicate IsRound(w: World, s: State, p: Name, n: NpcId, npc: NpcId, o: Outcome) {
    && p in s.players && npc in w.hostile
    && exists fighter, r :: Fits(fighter, w.hostile[npc].stats, r)
                            && o == Round(fighter, w.hostile[npc].stats, s.players[p].hp, EnemyBefore(w, s, p, n), r)
  }

  predicate Fits(fighter: Fighter, enemy: Fighter, r: Rolls) {
    IsPlayer(fighter) && Legal(fighter, enemy, r)
  }

  /** Before the round, with the fight registered and the enemy untouched. */
  ghost predicate Ahead(w: World, s: State, t: State, p: Name, n: NpcId, f: nat) {
    && Plays(w, s, t, p, n, f) && SameBody(s, t, p) && p in t.ongoing && t.ongoing[p] == f
    && t.fights[f].hp == EnemyBefore(w, s, p, n) && t.fights[f].results == RoundsBefore(s, p)
  }

  function Revived(hp: int): int {
    if hp <= 0 then 50 else hp
  }

  /** After the round, as far as the fight goroutine has got. */
  ghost predicate Rolled(w: World, s: State, t: State, p: Name, n: NpcId, f: nat, o: Outcome) {
    && Plays(w, s, t, p, n, f) && t.players[p].loc == s.players[p].loc
    && IsRound(w, s, p, n, t.fights[f].npc, o) && t.fights[f].hp == o.npcHP && t.fights[f].results == RoundsBefore(s, p)
    && match t.fights[f].pc
       case FreeNpc(o') => o' == o && o.over && t.players[p].hp == o.currHP
       case Unregister(o') => o' == o && o.over && t.players[p].hp == o.currHP
       case FixHP(o') => o' == o && o.over && t.players[p].hp == o.currHP && p !in t.ongoing
       case FixStatus(o') => o' == o && o.over && t.players[p].hp == Revived(o.currHP) && p !in t.ongoing
       case Deliver(o') => o' == o && Settled(t, p, f, o)
       case _ => false
  }

  /** What the round leaves behind. */
  ghost predicate Settled(t: State, p: Name, f: nat, o: Outcome) {
    && p in t.players && t.players[p].hp == Revived(o.currHP) && (!o.over ==> o.currHP > 0)
    && if o.over then p !in t.ongoing && t.players[p].status == ByHP(t.players[p].hp)
       else p in t.ongoing && t.ongoing[p] == f && t.players[p].status == Engaged
  }

  /** The round is played and answered. */
  ghost predicate Answered(w: World, s: State, t: State, p: Name, n: NpcId, f: nat, o: Outcome) {
    && Plays(w, s, t, p, n, f) && IsRound(w, s, p, n, t.fights[f].npc, o)
    && t.fights[f].hp == o.npcHP && t.fights[f].results == t.fights[f].sends == RoundsBefore(s, p) + 1
    && Settled(t, p, f, o) && t.fights[f].pc == (if o.over then Done else Waiting)
  }

  ghost predicate AttackOn(w: World, s: State, t: State, p: Name, n: NpcId) {
    p in s.players && p in t.players && |t.fights| >= |s.fights| &&
    var me := t.players[p];
    match me.pc
    case AtkStatus(m) => m == n && Untouched(s, t, p)
    case AtkLookup => p in s.ongoing && Untouched(s, t, p)
    case AtkOccupy(m) => m == n && p !in s.ongoing && Present(w, s, p, n) && Untouched(s, t, p)
    case AtkRegister(m) => m == n && p !in s.ongoing && Present(w, s, p, n) && n in w.hostile && Untouched(s, t, p)
    case AtkEngage(f) => Ahead(w, s, t, p, n, f)
    case AtkSpawn(f) => Ahead(w, s, t, p, n, f)
    case AtkSend(f) => Ahead(w, s, t, p, n, f)
    case AtkAwait(f) =>
      if f < |t.fights| && t.fights[f].pc.Computing? then Ahead(w, s, t, p, n, f) else exists o :: Rolled(w, s, t, p, n, f, o)
    case AtkReply(o) => me.loc == s.players[p].loc && exists f :: Answered(w, s, t, p, n, f, o)
    case ShiftOut(z) => z == w.respawn && me.loc == s.players[p].loc && Lost(w, s, t, p, n)
    case ShiftLoc(z) => z == w.respawn && Lost(w, s, t, p, n)
    case ShiftIn(z) => z == w.respawn && me.loc == w.respawn && Lost(w, s, t, p, n)
    case Idle => Refused(s, t, p) || Went(w, s, t, p, n)
    case _ => false
  }

  ghost predicate Lost(w: World, s: State, t: State, p: Name, n: NpcId) {
    exists f, o :: Answered(w, s, t, p, n, f, o) && o.over && o.currHP <= 0
  }

  ghost predicate Refused(s: State, t: State, p: Name) {
    p !in s.ongoing && Untouched(s, t, p)
  }

  /** The round took place, and a player who fell in it is at the respawn zone. */
  ghost predicate Went(w: World, s: State, t: State, p: Name, n: NpcId) {
    exists f, o :: Answered(w, s, t, p, n, f, o) && t.players[p].loc == (if o.currHP <= 0 then w.respawn else s.players[p].loc)
  }

  // ---- Step by step ----

  lemma AnsweredAside(w: World, s: State, t: State, t': State, p: Name, n: NpcId, f: nat, o: Outcome)
    requires Answered(w, s, t, p, n, f, o) && KeptFor(t, t', p)
    ensures Answered(w, s, t', p, n, f, o)
  {
  }

  lemma AwaitAside(w: World, s: State, t: State, t': State, p: Name, n: NpcId)
    requires AttackOn(w, s, t, p, n) && KeptFor(t, t', p) && t.players[p].pc.AtkAwait?
    ensures AttackOn(w, s, t', p, n)
  {
    var f := t.players[p].pc.f;
    if !(f < |t.fights| && t.fights[f].pc.Computing?) {
      var o :| Rolled(w, s, t, p, n, f, o);
      assert Rolled(w, s, t', p, n, f, o);
    }
  }

  lemma ShiftAside(w: World, s: State, t: State, t': State, p: Name, n: NpcId)
    requires AttackOn(w, s, t, p, n) && KeptFor(t, t', p) && InMove(t.players[p].pc)
    ensures AttackOn(w, s, t', p, n)
  {
    var f, o :| Answered(w, s, t, p, n, f, o) && o.over && o.currHP <= 0;
    AnsweredAside(w, s, t, t', p, n, f, o);
  }

  lemma ReplyAside(w: World, s: State, t: State, t': State, p: Name, n: NpcId)
    requires AttackOn(w, s, t, p, n) && KeptFor(t, t', p) && t.players[p].pc.AtkReply?
    ensures AttackOn(w, s, t', p, n)
  {
    var f :| Answered(w, s, t, p, n, f, t.players[p].pc.o);
    AnsweredAside(w, s, t, t', p, n, f, t.players[p].pc.o);
  }

  lemma StartAside(w: World, s: State, t: State, t': State, p: Name, n: NpcId)
    requires AttackOn(w, s, t, p, n) && KeptFor(t, t', p) && InStart(t.players[p].pc) && Sound(t, p)
    ensures AttackOn(w, s, t', p, n)
  {
  }

  lemma AheadAside(w: World, s: State, t: State, t': State, p: Name, n: NpcId)
    requires AttackOn(w, s, t, p, n) && KeptFor(t, t', p)
    requires t.players[p].pc.AtkEngage? || t.players[p].pc.AtkSpawn? || t.players[p].pc.AtkSend?
    ensures AttackOn(w, s, t', p, n)
  {
  }

  predicate InStart(pc: PC) {
    pc.AtkStatus? || pc.AtkLookup? || pc.AtkOccupy? || pc.AtkRegister?
  }

  lemma AttackAside(w: World, s: State, t: State, t': State, p: Name, n: NpcId)
    requires AttackOn(w, s, t, p, n) && KeptFor(t, t', p) && Busy(t, p) && (!Waits(t.players[p].pc) ==> Sound(t, p))
    ensures AttackOn(w, s, t', p, n)
  {
    var pc := t.players[p].pc;
    if InStart(pc) {
      StartAside(w, s, t, t', p, n);
    } else if InMove(pc) {
      ShiftAside(w, s, t, t', p, n);
    } else if pc.AtkReply? {
      ReplyAside(w, s, t, t', p, n);
    } else if pc.AtkAwait? {
      AwaitAside(w, s, t, t', p, n);
    } else {
      AheadAside(w, s, t, t', p, n);
    }
  }

  // Its own steps.

  lemma StartOwn(w: World, s: State, t: State, p: Name, n: NpcId)
    requires AttackOn(w, s, t, p, n) && InStart(t.players[p].pc) && LocalOk(w, t, p)
    ensures AttackOn(w, s, RunAttack(w, t, p), p, n)
  {
  }

  lemma AheadOwn(w: World, s: State, t: State, p: Name, n: NpcId)
    requires AttackOn(w, s, t, p, n) && (t.players[p].pc.AtkEngage? || t.players[p].pc.AtkSpawn?)
    ensures PointsToFight(t, t.players[p].pc) && AttackOn(w, s, RunAttack(w, t, p), p, n)
  {
  }

  lemma ReplyOwn(w: World, s: State, t: State, p: Name, n: NpcId)
    requires AttackOn(w, s, t, p, n) && t.players[p].pc.AtkReply?
    ensures AttackOn(w, s, RunAttack(w, t, p), p, n)
    ensures RunAttack(w, t, p).players[p].pc == Idle ==> Went(w, s, RunAttack(w, t, p), p, n)
  {
    var o := t.players[p].pc.o;
    var f :| Answered(w, s, t, p, n, f, o);
    var t' := RunAttack(w, t, p);
    assert Answered(w, s, t', p, n, f, o);
  }

  lemma ShiftOwn(w: World, s: State, t: State, p: Name, n: NpcId)
    requires AttackOn(w, s, t, p, n) && InMove(t.players[p].pc)
    ensures AttackOn(w, s, RunMove(w, t, p), p, n)
    ensures RunMove(w, t, p).players[p].pc == Idle ==> Went(w, s, RunMove(w, t, p), p, n)
  {
    var f, o :| Answered(w, s, t, p, n, f, o) && o.over && o.currHP <= 0;
    assert Answered(w, s, RunMove(w, t, p), p, n, f, o);
  }

  lemma SendOwn(w: World, s: State, t: State, t': State, p: Name, n: NpcId)
    requires AttackOn(w, s, t, p, n) && Step(w, t, t', Send(p))
    ensures AttackOn(w, s, t', p, n)
  {
  }

  lemma ListenOwn(w: World, s: State, t: State, t': State, p: Name, n: NpcId, f: nat)
    requires AttackOn(w, s, t, p, n) && t.players[p].pc == AtkSend(f) && Step(w, t, t', RunFight(f)) && LocalOk(w, t, p)
    ensures AttackOn(w, s, t', p, n)
  {
    assert FightOk(w, t, f);
  }

  lemma RollOwn(w: World, s: State, t: State, t': State, p: Name, n: NpcId, f: nat, fighter: Fighter, r: Rolls)
    requires AttackOn(w, s, t, p, n) && t.players[p].pc == AtkAwait(f) && Step(w, t, t', Roll(f, fighter, r)) && LocalOk(w, t, p) && w.Ok()
    ensures AttackOn(w, s, t', p, n)
  {
    assert FightOk(w, t, f);
    var o := Round(fighter, w.hostile[t.fights[f].npc].stats, s.players[p].hp, EnemyBefore(w, s, p, n), r);
    RoundIsFair(fighter, w.hostile[t.fights[f].npc].stats, s.players[p].hp, EnemyBefore(w, s, p, n), r);
    assert Fits(fighter, w.hostile[t.fights[f].npc].stats, r);
    assert Rolled(w, s, t', p, n, f, o);
  }

  lemma FightFrees(w: World, s: State, t: State, p: Name, n: NpcId, f: nat, o: Outcome)
    requires Rolled(w, s, t, p, n, f, o) && (t.fights[f].pc.FreeNpc? || t.fights[f].pc.Unregister?)
    ensures Rolled(w, s, FightStep(t, f), p, n, f, o)
  {
  }

  lemma FightMends(w: World, s: State, t: State, p: Name, n: NpcId, f: nat, o: Outcome)
    requires Rolled(w, s, t, p, n, f, o) && (t.fights[f].pc.FixHP? || t.fights[f].pc.FixStatus?)
    ensures Rolled(w, s, FightStep(t, f), p, n, f, o)
  {
  }

  lemma FightOwn(w: World, s: State, t: State, t': State, p: Name, n: NpcId, f: nat)
    requires AttackOn(w, s, t, p, n) && t.players[p].pc == AtkAwait(f) && Step(w, t, t', RunFight(f)) && !t.fights[f].pc.Computing?
    ensures t'.players.Keys == t.players.Keys && t'.players[p].pc == AtkAwait(f) && |t'.fights| == |t.fights|
    ensures !t'.fights[f].pc.Computing? && exists o :: Rolled(w, s, t', p, n, f, o)
  {
    var o :| Rolled(w, s, t, p, n, f, o);
    if t.fights[f].pc.FreeNpc? || t.fights[f].pc.Unregister? {
      FightFrees(w, s, t, p, n, f, o);
    } else {
      FightMends(w, s, t, p, n, f, o);
    }
    assert Rolled(w, s, t', p, n, f, o);
  }

  lemma AnswerOwn(w: World, s: State, t: State, t': State, p: Name, n: NpcId, f: nat)
    requires AttackOn(w, s, t, p, n) && t.players[p].pc == AtkAwait(f) && Step(w, t, t', Answer(f)) && LocalOk(w, t, p)
    ensures AttackOn(w, s, t', p, n)
  {
    assert FightOk(w, t, f);
    var o :| Rolled(w, s, t, p, n, f, o);
    assert Answered(w, s, t', p, n, f, o);
  }

  /** A fight of p that it is not taken up with is over. */
  lemma OldFights(w: World, s: State, s': State, p: Name, a: Act)
    requires LocalOk(w, s, p) && p in s.players && Step(w, s, s', a) && Mover(s, a) == p && ByFight(a)
    requires Waits(s.players[p].pc) && a.f != s.players[p].pc.f
    ensures KeptFor(s, s', p)
  {
    assert FightOk(w, s, a.f);
  }

  lemma SendMeets(w: World, t: State, t': State, p: Name, a: Act)
    requires LocalOk(w, t, p) && p in t.players && Step(w, t, t', a) && ByFight(a) && t.players[p].pc == AtkSend(a.f)
    ensures a.RunFight?
  {
    assert FightOk(w, t, a.f);
  }

  lemma AwaitRuns(w: World, t: State, t': State, p: Name, f: nat)
    requires LocalOk(w, t, p) && p in t.players && Step(w, t, t', RunFight(f)) && t.players[p].pc == AtkAwait(f)
    ensures !t.fights[f].pc.Computing?
  {
    assert FightOk(w, t, f);
  }

  lemma OwnFight(w: World, s: State, t: State, t': State, p: Name, n: NpcId, a: Act)
    requires w.Ok() && LocalOk(w, t, p) && AttackOn(w, s, t, p, n) && Step(w, t, t', a) && ByFight(a)
    requires Waits(t.players[p].pc) && a.f == t.players[p].pc.f
    ensures AttackOn(w, s, t', p, n)
  {
    var f := a.f;
    if t.players[p].pc.AtkSend? {
      SendMeets(w, t, t', p, a);
      ListenOwn(w, s, t, t', p, n, f);
    } else if a.Roll? {
      RollOwn(w, s, t, t', p, n, f, a.fighter, a.rolls);
    } else if a.Answer? {
      AnswerOwn(w, s, t, t', p, n, f);
    } else {
      AwaitRuns(w, t, t', p, f);
      FightOwn(w, s, t, t', p, n, f);
    }
  }

  lemma OwnRun(w: World, s: State, t: State, t': State, p: Name, n: NpcId)
    requires LocalOk(w, t, p) && AttackOn(w, s, t, p, n) && Busy(t, p) && Step(w, t, t', Run(p))
    ensures AttackOn(w, s, t', p, n)
  {
    RunUnfolds(w, t, t', p);
    var pc := t.players[p].pc;
    if InStart(pc) {
      StartOwn(w, s, t, p, n);
    } else if InMove(pc) {
      ShiftOwn(w, s, t, p, n);
    } else if pc.AtkReply? {
      ReplyOwn(w, s, t, p, n);
    } else {
      AheadOwn(w, s, t, p, n);
    }
  }

  lemma AttackFurther(w: World, run: seq<State>, a: nat, k: nat, p: Name, n: NpcId)
    requires w.Ok() && w.Apart() && IsRun(w, run) && a < k && k + 1 < |run|
    requires Busy(run[k], p) && AttackOn(w, run[a], run[k], p, n)
    ensures AttackOn(w, run[a], run[k + 1], p, n)
  {
    var s, t, t' := run[a], run[k], run[k + 1];
    RunKeeps(w, run, k);
    assert NextAt(w, run, k) && LocalOk(w, t, p);
    var pc := t.players[p].pc;
    if !Waits(pc) {
      SoundHere(w, t, p);
    }
    var act :| Step(w, t, t', act);
    if Mover(t, act) != p {
      OthersAside(w, t, t', p, act);
      AttackAside(w, s, t, t', p, n);
    } else if ByFight(act) && (!Waits(pc) || act.f != pc.f) {
      if Waits(pc) {
        OldFights(w, t, t', p, act);
      } else {
        FightsAside(w, t, t', p, act);
      }
      AttackAside(w, s, t, t', p, n);
    } else if ByFight(act) {
      OwnFight(w, s, t, t', p, n, act);
    } else if act.Send? {
      SendOwn(w, s, t, t', p, n);
    } else {
      OwnRun(w, s, t, t', p, n);
    }
  }

  lemma {:induction false} AttackAlong(w: World, run: seq<State>, a: nat, k: nat, p: Name, n: NpcId)
    requires w.Ok() && w.Apart() && IsRun(w, run) && Under(w, run, a, k, p, Attack(n))
    ensures AttackOn(w, run[a], run[k], p, n)
    decreases k
  {
    if k == a + 1 {
      SoundNow(w, run, a, p);
    } else {
      AttackAlong(w, run, a, k - 1, p, n);
      AttackFurther(w, run, a, k - 1, p, n);
    }
  }

  // ---- What it comes to ----

  /** Why an ATTACK of a player without a fight is refused, at its last step. */
  ghost predicate MayRefuse(w: World, t: State, p: Name, n: NpcId) {
    p in t.players && (!Present(w, t, p, n) || n !in w.hostile || n in t.occupied)
  }

  /** ATTACK, in every run. It is refused, which changes nothing, only to a player without a fight
      and for an NPC that is elsewhere, no enemy or taken. Otherwise exactly one round is played, of
      the registered fight or of a new one against the NPC named: its outcome is in the player's HP,
      the enemy's HP and the registry, and a player who fell has half the HP and is respawned. */
  lemma AttackIsOneRound(w: World, run: seq<State>, a: nat, b: nat, p: Name, n: NpcId)
    requires w.Ok() && w.Apart() && IsRun(w, run) && Serves(w, run, a, b, p, Attack(n))
    ensures
      || (Refused(run[a], run[b], p) && MayRefuse(w, run[b - 1], p, n))
      || Went(w, run[a], run[b], p, n)
  {
    AttackAlong(w, run, a, b, p, n);
    if Refused(run[a], run[b], p) && !Went(w, run[a], run[b], p, n) {
      AttackAlong(w, run, a, b - 1, p, n);
      LastStep(w, run, a, b - 1, p, n);
    }
  }

  lemma LastStep(w: World, run: seq<State>, a: nat, k: nat, p: Name, n: NpcId)
    requires w.Ok() && w.Apart() && IsRun(w, run) && a < k && k + 1 < |run| && Busy(run[k], p) && AttackOn(w, run[a], run[k], p, n)
    requires p in run[k + 1].players && run[k + 1].players[p].pc == Idle && !Went(w, run[a], run[k + 1], p, n)
    ensures MayRefuse(w, run[k], p, n)
  {
    var s, t, t' := run[a], run[k], run[k + 1];
    RunKeeps(w, run, k);
    assert NextAt(w, run, k) && LocalOk(w, t, p);
    var act :| Step(w, t, t', act);
    if Mover(t, act) != p {
      OthersAside(w, t, t', p, act);
    } else if act == Run(p) {
      RunUnfolds(w, t, t', p);
      LastRun(w, s, t, p, n);
    } else {
      OnlyRunEnds(w, t, t', p, act);
    }
  }

  lemma LastRun(w: World, s: State, t: State, p: Name, n: NpcId)
    requires AttackOn(w, s, t, p, n) && Busy(t, p) && (InAttack(t.players[p].pc) || InMove(t.players[p].pc)) && PointsToFight(t, t.players[p].pc)
    ensures InAttack(t.players[p].pc) && RunAttack(w, t, p).players[p].pc == Idle ==> Went(w, s, RunAttack(w, t, p), p, n) || MayRefuse(w, t, p, n)
    ensures InMove(t.players[p].pc) && RunMove(w, t, p).players[p].pc == Idle ==> Went(w, s, RunMove(w, t, p), p, n)
  {
    if InMove(t.players[p].pc) {
      ShiftOwn(w, s, t, p, n);
    } else if t.players[p].pc.AtkReply? {
      ReplyOwn(w, s, t, p, n);
    }
  }

  /** Only a step of its own, and no fight's, brings a player back to the command boundary. */
  lemma OnlyRunEnds(w: World, t: State, t': State, p: Name, act: Act)
    requires LocalOk(w, t, p) && Busy(t, p) && Step(w, t, t', act) && Mover(t, act) == p && act != Run(p)
    ensures Busy(t', p)
  {
    if ByFight(act) {
      assert FightOk(w, t, act.f);
    }
  }

  /** And on the way there is always a next step, of the player's connection or of its fight. */
  lemma AttackGoesOn(w: World, run: seq<State>, a: nat, k: nat, p: Name, n: NpcId)
    requires w.Ok() && w.Apart() && IsRun(w, run) && Under(w, run, a, k, p, Attack(n)) && Busy(run[k], p)
    ensures exists act, s' :: Step(w, run[k], s', act) && Mover(run[k], act) == p
  {
    var t := run[k];
    AttackAlong(w, run, a, k, p, n);
    RunKeeps(w, run, k);
    assert LocalOk(w, t, p);
    ReachesHere(w, run, k);
    var pc := t.players[p].pc;
    if pc.AtkSend? {
      SendIsMet(w, t, p);
    } else if pc.AtkAwait? {
      var act, s' := FightCanStep(w, t, p);
      assert Step(w, t, s', act) && Mover(t, act) == p;
    } else {
      NextRun(w, run[a], t, p, n);
    }
  }

  lemma ReachesHere(w: World, run: seq<State>, k: nat)
    requires IsRun(w, run) && k < |run|
    ensures Reachable(w, run[k])
  {
    var part := run[..k + 1];
    forall i | 0 <= i < |part| - 1 ensures NextAt(w, part, i) {
      assert NextAt(w, run, i);
    }
    assert IsRun(w, part) && part[|part| - 1] == run[k];
  }

  lemma NextRun(w: World, s: State, t: State, p: Name, n: NpcId)
    requires LocalOk(w, t, p) && AttackOn(w, s, t, p, n) && Busy(t, p) && !Waits(t.players[p].pc)
    ensures exists act, s' :: Step(w, t, s', act) && Mover(t, act) == p
  {
    if InMove(t.players[p].pc) {
      assert Step(w, t, RunMove(w, t, p), Run(p)) && Mover(t, Run(p)) == p;
    } else {
      assert Step(w, t, RunAttack(w, t, p), Run(p)) && Mover(t, Run(p)) == p;
    }
  }
}
