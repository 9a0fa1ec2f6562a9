/** What happens in one fight of a run: its rounds are a fight of the arithmetic, from the HP
    both sides had when it was registered, however the goroutines interleave. */
module FightChronicle {
  import opened Wrappers
  import opened Combat
  import opened FightProtocol
  import opened FightSafety

  const STRENGTH := 7

  /** The fight goroutine has started or will, and no round so far has ended the fight. */
  predicate Going(fight: Fight) {
    !fight.closed && (fight.pc in {Created, Started, Waiting, Computing} || (fight.pc.Deliver? && !fight.pc.o.over))
  }

  /** The round of fight f that the step between two states plays, if it plays one. */
  function RoundOf(s: State, s': State, f: nat): seq<Outcome> {
    if f < |s.fights| && f < |s'.fights| && s.fights[f].pc == Computing && (s'.fights[f].pc.FreeNpc? || s'.fights[f].pc.Deliver?)
    then [s'.fights[f].pc.o] else []
  }

  function RoundsOf(run: seq<State>, f: nat, k: nat, m: nat): seq<Outcome>
    requires k <= m < |run|
    decreases m
  {
    if m == k then [] else RoundsOf(run, f, k, m - 1) + RoundOf(run[m - 1], run[m], f)
  }

  function EnemyOf(w: World, s: State, f: nat): Enemy
    requires f < |s.fights| && s.fights[f].npc in w.hostile
  {
    w.hostile[s.fights[f].npc]
  }

  /** The rounds so far tell the fight: what either side has left, and whether it goes on. */
  ghost predicate Chronicle(w: World, s: State, f: nat, e: Enemy, hp: int, rounds: seq<Outcome>) {
    && f < |s.fights| && s.fights[f].npc in w.hostile && EnemyOf(w, s, f) == e
    && Played(STRENGTH, e.stats, hp, e.hp, rounds)
    && s.fights[f].hp == NpcBefore(e.hp, rounds, |rounds|)
    && (Going(s.fights[f]) ==> Tells(s, s.fights[f].player, hp, rounds))
  }

  ghost predicate Tells(s: State, p: Name, hp: int, rounds: seq<Outcome>) {
    && p in s.players && s.players[p].hp == HPBefore(hp, rounds, |rounds|)
    && (rounds != [] ==> !rounds[|rounds| - 1].over)
  }

  // ---- One step ----

  /** The step leaves fight f as far as it was, for its player too. */
  ghost predicate Still(s: State, s': State, f: nat) {
    && f < |s.fights| && f < |s'.fights|
    && s'.fights[f].npc == s.fights[f].npc && s'.fights[f].player == s.fights[f].player && s'.fights[f].hp == s.fights[f].hp
    && RoundOf(s, s', f) == []
    && (Going(s'.fights[f]) ==> Going(s.fights[f]) && SameHP(s, s', s.fights[f].player))
  }

  ghost predicate SameHP(s: State, s': State, p: Name) {
    p in s.players && p in s'.players && s'.players[p].hp == s.players[p].hp
  }

  lemma OthersStill(w: World, s: State, s': State, a: Act, f: nat)
    requires w.Ok() && w.Apart() && Inv(w, s) && Step(w, s, s', a) && f < |s.fights| && Mover(s, a) != s.fights[f].player
    ensures Still(s, s', f)
  {
    var p := s.fights[f].player;
    assert LocalOk(w, s, Mover(s, a)) && LocalOk(w, s, p);
    StepIsGood(w, s, s', a);
    UntouchedStill(w, s, s', Mover(s, a), f);
  }

  lemma UntouchedStill(w: World, s: State, s': State, q: Name, f: nat)
    requires f < |s.fights| && q != s.fights[f].player && OnlyTouches(s, s', q) && LocalOk(w, s, s.fights[f].player)
    ensures Still(s, s', f)
  {
    assert SameFor(s, s', s.fights[f].player) && FightOk(w, s, f);
  }

  /** A going fight is what its player is taken up with. */
  lemma GoingIsCurrent(w: World, s: State, f: nat)
    requires f < |s.fights| && LocalOk(w, s, s.fights[f].player) && Going(s.fights[f])
    ensures s.fights[f].player in s.players && Current(s, s.fights[f].player) == Some(f)
  {
    assert FightOk(w, s, f);
  }

  lemma RunStill(w: World, s: State, s': State, f: nat)
    requires f < |s.fights| && LocalOk(w, s, s.fights[f].player) && Step(w, s, s', Run(s.fights[f].player))
    ensures Still(s, s', f)
  {
    var p := s.fights[f].player;
    RunUnfolds(w, s, s', p);
    var pc := s.players[p].pc;
    if Going(s.fights[f]) {
      GoingIsCurrent(w, s, f);
    }
    if InAttack(pc) {
      AttackStill(w, s, f);
    } else if InEnd(pc) {
      EndStill(w, s, f);
    } else if InTalk(pc) {
      TalkStill(w, s, f);
    }
  }

  lemma AttackStill(w: World, s: State, f: nat)
    requires f < |s.fights| && LocalOk(w, s, s.fights[f].player)
    requires var p := s.fights[f].player; p in s.players && InAttack(s.players[p].pc) && PointsToFight(s, s.players[p].pc)
    ensures Still(s, RunAttack(w, s, s.fights[f].player), f)
  {
  }

  lemma EndStill(w: World, s: State, f: nat)
    requires f < |s.fights| && LocalOk(w, s, s.fights[f].player)
    requires var p := s.fights[f].player; p in s.players && InEnd(s.players[p].pc) && PointsToFight(s, s.players[p].pc)
    ensures Still(s, RunEnd(s, s.fights[f].player), f)
  {
    if Going(s.fights[f]) {
      GoingIsCurrent(w, s, f);
    }
  }

  lemma TalkStill(w: World, s: State, f: nat)
    requires f < |s.fights| && LocalOk(w, s, s.fights[f].player)
    requires var p := s.fights[f].player; p in s.players && InTalk(s.players[p].pc)
    ensures Still(s, RunTalk(w, s, s.fights[f].player), f)
  {
    if Going(s.fights[f]) {
      GoingIsCurrent(w, s, f);
    }
  }

  lemma FightStill(w: World, s: State, s': State, g: nat, f: nat)
    requires f < |s.fights| && LocalOk(w, s, s.fights[f].player) && Step(w, s, s', RunFight(g))
    requires s.fights[g].player == s.fights[f].player
    ensures Still(s, s', f)
  {
    assert FightOk(w, s, g);
    if Going(s.fights[f]) {
      GoingIsCurrent(w, s, f);
    }
  }

  /** The rolls and answers of the player's other fights, and its own sends and new commands. */
  lemma RestStill(w: World, s: State, s': State, a: Act, f: nat)
    requires f < |s.fights| && LocalOk(w, s, s.fights[f].player) && Step(w, s, s', a) && Mover(s, a) == s.fights[f].player
    requires !a.Run? && !a.RunFight? && !(a.Roll? && a.f == f)
    ensures Still(s, s', f)
  {
    assert FightOk(w, s, f);
    assert a.Roll? ==> FightOk(w, s, a.f);
  }

  lemma OwnStill(w: World, s: State, s': State, a: Act, f: nat)
    requires f < |s.fights| && LocalOk(w, s, s.fights[f].player) && Step(w, s, s', a) && Mover(s, a) == s.fights[f].player
    requires !(a.Roll? && a.f == f)
    ensures Still(s, s', f)
  {
    if a.Run? {
      RunStill(w, s, s', f);
    } else if a.RunFight? {
      FightStill(w, s, s', a.f, f);
    } else {
      RestStill(w, s, s', a, f);
    }
  }

  lemma StillTells(w: World, s: State, s': State, f: nat, e: Enemy, hp: int, rounds: seq<Outcome>)
    requires Chronicle(w, s, f, e, hp, rounds) && Still(s, s', f)
    ensures Chronicle(w, s', f, e, hp, rounds + RoundOf(s, s', f))
  {
    assert rounds + [] == rounds;
  }

  /** One more round behind a fight that goes on. */
  lemma PlayedMore(strength: int, n: Fighter, currHP: int, npcHP: int, f: seq<Outcome>, p: Fighter, r: Rolls)
    requires Played(strength, n, currHP, npcHP, f) && (f != [] ==> !f[|f| - 1].over)
    requires p.strength == strength && Legal(p, n, r)
    ensures Played(strength, n, currHP, npcHP, f + [Round(p, n, HPBefore(currHP, f, |f|), NpcBefore(npcHP, f, |f|), r)])
  {
    var o := Round(p, n, HPBefore(currHP, f, |f|), NpcBefore(npcHP, f, |f|), r);
    var g := f + [o];
    forall k | 0 <= k < |g| ensures RoundAt(strength, n, currHP, npcHP, g, k) {
      if k < |f| {
        assert RoundAt(strength, n, currHP, npcHP, f, k);
      }
      assert HPBefore(currHP, g, k) == HPBefore(currHP, f, k) && NpcBefore(npcHP, g, k) == NpcBefore(npcHP, f, k);
    }
  }

  lemma RollTells(w: World, s: State, s': State, f: nat, fighter: Fighter, r: Rolls, e: Enemy, hp: int, rounds: seq<Outcome>)
    requires f < |s.fights| && LocalOk(w, s, s.fights[f].player) && Step(w, s, s', Roll(f, fighter, r))
    requires Chronicle(w, s, f, e, hp, rounds)
    ensures Chronicle(w, s', f, e, hp, rounds + RoundOf(s, s', f))
  {
    assert FightOk(w, s, f);
    PlayedMore(STRENGTH, e.stats, hp, e.hp, rounds, fighter, r);
  }

  lemma ChronicleStep(w: World, s: State, s': State, a: Act, f: nat, e: Enemy, hp: int, rounds: seq<Outcome>)
    requires w.Ok() && w.Apart() && Inv(w, s) && Step(w, s, s', a) && Chronicle(w, s, f, e, hp, rounds)
    ensures Chronicle(w, s', f, e, hp, rounds + RoundOf(s, s', f))
  {
    assert LocalOk(w, s, s.fights[f].player);
    if a.Roll? && a.f == f {
      RollTells(w, s, s', f, a.fighter, a.rolls, e, hp, rounds);
    } else {
      if Mover(s, a) == s.fights[f].player {
        OwnStill(w, s, s', a, f);
      } else {
        OthersStill(w, s, s', a, f);
      }
      StillTells(w, s, s', f, e, hp, rounds);
    }
  }

  // ---- The fight of a run ----

  /** Fight f is registered by the step to state k. */
  ghost predicate RegisteredAt(run: seq<State>, f: nat, k: nat) {
    0 < k < |run| && |run[k - 1].fights| <= f < |run[k].fights|
  }

  /** Only an attack registers. */
  lemma Registers(w: World, s: State, s': State, a: Act)
    requires Step(w, s, s', a) && |s.fights| < |s'.fights|
    ensures a.Run? && a.p in s.players && s.players[a.p].pc.AtkRegister? && s' == RunAttack(w, s, a.p)
  {
    if a.Run? {
      RunUnfolds(w, s, s', a.p);
    }
  }

  lemma ChronicleBegins(w: World, run: seq<State>, f: nat, k: nat)
    requires w.Ok() && w.Apart() && IsRun(w, run) && RegisteredAt(run, f, k)
    ensures var s := run[k]; f < |s.fights| && s.fights[f].npc in w.hostile && s.fights[f].player in s.players
    ensures var s := run[k]; var hp := s.players[s.fights[f].player].hp;
      1 <= hp <= MAX_HP && Chronicle(w, s, f, EnemyOf(w, s, f), hp, [])
  {
    RunKeeps(w, run, k - 1);
    assert NextAt(w, run, k - 1);
    var a :| Step(w, run[k - 1], run[k], a);
    Registers(w, run[k - 1], run[k], a);
    assert LocalOk(w, run[k - 1], a.p);
    RegisteredFresh(w, run[k - 1], a.p);
  }

  lemma RegisteredFresh(w: World, s: State, p: Name)
    requires LocalOk(w, s, p) && p in s.players && s.players[p].pc.AtkRegister?
    ensures var s' := RunAttack(w, s, p); var f := |s.fights|;
      && |s'.fights| == f + 1 && s'.fights[f].npc in w.hostile && s'.fights[f].player == p && p in s'.players
      && 1 <= s'.players[p].hp <= MAX_HP && Chronicle(w, s', f, EnemyOf(w, s', f), s'.players[p].hp, [])
  {
  }

  lemma NextTells(w: World, run: seq<State>, n: nat, f: nat, e: Enemy, hp: int, rounds: seq<Outcome>)
    requires w.Ok() && w.Apart() && IsRun(w, run) && n + 1 < |run| && Chronicle(w, run[n], f, e, hp, rounds)
    ensures Chronicle(w, run[n + 1], f, e, hp, rounds + RoundOf(run[n], run[n + 1], f))
  {
    RunKeeps(w, run, n);
    assert NextAt(w, run, n);
    var a :| Step(w, run[n], run[n + 1], a);
    ChronicleStep(w, run[n], run[n + 1], a, f, e, hp, rounds);
  }

  /** Once told, a fight is told at every later moment of the run. */
  lemma {:induction false} TellsOn(w: World, run: seq<State>, f: nat, k: nat, m: nat, e: Enemy, hp: int)
    requires w.Ok() && w.Apart() && IsRun(w, run) && k <= m < |run| && Chronicle(w, run[k], f, e, hp, [])
    ensures Chronicle(w, run[m], f, e, hp, RoundsOf(run, f, k, m))
    decreases m
  {
    if m > k {
      TellsOn(w, run, f, k, m - 1, e, hp);
      NextTells(w, run, m - 1, f, e, hp, RoundsOf(run, f, k, m - 1));
    }
  }

  /** From its registration on, at every moment of every run, the rounds of a fight are one
      fight of the arithmetic, against the registered enemy, from the HP the player then had. */
  lemma FightInRun(w: World, run: seq<State>, f: nat, k: nat, m: nat) returns (e: Enemy, hp: int)
    requires w.Ok() && w.Apart() && IsRun(w, run) && RegisteredAt(run, f, k) && k <= m < |run|
    ensures StartsWith(w, run[k], f, e, hp) && Chronicle(w, run[m], f, e, hp, RoundsOf(run, f, k, m))
  {
    ChronicleBegins(w, run, f, k);
    e, hp := EnemyOf(w, run[k], f), run[k].players[run[k].fights[f].player].hp;
    TellsOn(w, run, f, k, m, e, hp);
  }

  ghost predicate StartsWith(w: World, s: State, f: nat, e: Enemy, hp: int) {
    && f < |s.fights| && s.fights[f].npc in w.hostile && EnemyOf(w, s, f) == e && s.fights[f].player in s.players
    && s.players[s.fights[f].player].hp == hp && 1 <= hp <= MAX_HP
  }

  /** So in every run a fight is over by the landed hits either side can take, and while it
      goes on those hits are paid for. */
  lemma FightInRunIsShort(w: World, run: seq<State>, f: nat, k: nat, m: nat) returns (e: Enemy, hp: int)
    requires w.Ok() && w.Apart() && IsRun(w, run) && RegisteredAt(run, f, k) && k <= m < |run|
    ensures StartsWith(w, run[k], f, e, hp) && f < |run[m].fights| && e.stats.strength >= 0
    ensures var rounds := RoundsOf(run, f, k, m);
      && (HitsEnough(STRENGTH, e.stats, hp, e.hp, rounds) ==> rounds != [] && rounds[|rounds| - 1].over && !Going(run[m].fights[f]))
      && (Going(run[m].fights[f]) ==>
            && PlayerHits(rounds) * (STRENGTH + 1) + run[m].fights[f].hp <= e.hp
            && NPCHits(rounds) * (e.stats.strength + 1) + HPBefore(hp, rounds, |rounds|) <= hp)
  {
    e, hp := FightInRun(w, run, f, k, m);
    ChronicleIsShort(w, run[m], f, e, hp, RoundsOf(run, f, k, m));
  }

  lemma ChronicleIsShort(w: World, s: State, f: nat, e: Enemy, hp: int, rounds: seq<Outcome>)
    requires Chronicle(w, s, f, e, hp, rounds) && hp >= 1 && e.hp >= 1 && e.stats.strength >= 0
    ensures HitsEnough(STRENGTH, e.stats, hp, e.hp, rounds) ==>
              rounds != [] && rounds[|rounds| - 1].over && !Going(s.fights[f])
    ensures Going(s.fights[f]) ==>
              && PlayerHits(rounds) * (STRENGTH + 1) + s.fights[f].hp <= e.hp
              && NPCHits(rounds) * (e.stats.strength + 1) + HPBefore(hp, rounds, |rounds|) <= hp
  {
    if HitsEnough(STRENGTH, e.stats, hp, e.hp, rounds) {
      PlayedIsShort(STRENGTH, e.stats, hp, e.hp, rounds);
    }
    if Going(s.fights[f]) {
      HitsAddUp(STRENGTH, e.stats, hp, e.hp, rounds, |rounds|);
      assert rounds[..|rounds|] == rounds;
    }
  }
}
