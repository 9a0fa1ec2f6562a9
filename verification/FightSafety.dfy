/** What the fight protocol keeps in every run: safety, and an answer to every attack. */
module FightSafety {
  import opened Wrappers
  import opened Combat
  import opened FightProtocol

  // ---- Every step ----

  /** Every step changes its own player's part of the state, rightly, and nothing else. */
  lemma StepIsGood(w: World, s: State, s': State, a: Act)
    requires w.Ok() && w.Apart() && LocalOk(w, s, Mover(s, a)) && Step(w, s, s', a)
    ensures GoodChange(w, s, s', Mover(s, a))
  {
    var p := Mover(s, a);
    match a {
      case Connect(_) => Connects(w, s, s', p);
      case Begin(_, c) => Begins(w, s, p, c);
      case Run(_) => ConnectionRuns(w, s, s', p);
      case Send(_) => Sends(w, s, s', p);
      case RunFight(f) =>
        if s.fights[f].pc == Waiting {
          FightStops(w, s, s', f);
        } else {
          FightRuns(w, s, s', f);
        }
      case Roll(f, fighter, r) => Rolled(w, s, s', f, fighter, r);
      case Answer(f) => Answers(w, s, s', f);
    }
  }

  lemma StepKeeps(w: World, s: State, s': State, a: Act)
    requires w.Ok() && w.Apart() && Inv(w, s) && Step(w, s, s', a)
    ensures Inv(w, s')
  {
    assert LocalOk(w, s, Mover(s, a));
    StepIsGood(w, s, s', a);
    Assemble(w, s, s', Mover(s, a));
  }

  // ---- Runs ----

  ghost predicate IsRun(w: World, run: seq<State>) {
    |run| >= 1 && run[0] == Init(w) && forall i :: 0 <= i < |run| - 1 ==> NextAt(w, run, i)
  }

  ghost predicate NextAt(w: World, run: seq<State>, i: nat)
    requires i + 1 < |run|
  {
    Next(w, run[i], run[i + 1])
  }

  ghost predicate Reachable(w: World, s: State) {
    exists run :: IsRun(w, run) && run[|run| - 1] == s
  }

  lemma {:induction false} RunKeeps(w: World, run: seq<State>, n: nat)
    requires w.Ok() && w.Apart() && IsRun(w, run) && n < |run|
    ensures Inv(w, run[n])
    decreases n
  {
    if n == 0 {
      InitKeeps(w);
    } else {
      RunKeeps(w, run, n - 1);
      assert NextAt(w, run, n - 1);
      var a :| Step(w, run[n - 1], run[n], a);
      StepKeeps(w, run[n - 1], run[n], a);
    }
  }

  lemma InitKeeps(w: World)
    requires w.Ok()
    ensures Inv(w, Init(w))
  {
  }

  lemma ReachableInv(w: World, s: State)
    requires w.Ok() && w.Apart() && Reachable(w, s)
    ensures Inv(w, s)
  {
    var run :| IsRun(w, run) && run[|run| - 1] == s;
    RunKeeps(w, run, |run| - 1);
  }

  // ---- Safety ----

  /** In no run does an attack find the player engaged without a fight, is an attack
      channel closed twice, or is a signal sent on a closed one. */
  lemma NothingBreaks(w: World, s: State, p: Name)
    requires w.Ok() && w.Apart() && Reachable(w, s) && p in s.players
    ensures s.players[p].pc != Broken
  {
    ReachableInv(w, s);
    assert LocalOk(w, s, p);
  }

  /** Between two commands a player's status and registry entry agree, HP is in range, and
      the player stands in exactly one zone: the one of the NPC being fought, if any. */
  lemma AtCommandBoundary(w: World, s: State, p: Name)
    requires w.Ok() && w.Apart() && Reachable(w, s) && p in s.players && s.players[p].pc == Idle
    ensures s.players[p].status == Engaged <==> p in s.ongoing
    ensures 1 <= s.players[p].hp <= MAX_HP
    ensures s.players[p].loc in s.inZone && forall z :: z in s.inZone ==> (p in s.inZone[z] <==> z == s.players[p].loc)
    ensures p in s.ongoing ==>
              && s.ongoing[p] < |s.fights|
              && var f := s.fights[s.ongoing[p]];
                 f.player == p && f.pc == Waiting && !f.closed && f.hp > 0 && f.sends == f.results && At(w, ViewOf(s, p), f.npc)
  {
    ReachableInv(w, s);
    assert LocalOk(w, s, p);
    if p in s.ongoing {
      assert FightOk(w, s, s.ongoing[p]);
    }
  }

  /** The fight that keeps an NPC occupied: not yet over and not yet given up. */
  ghost predicate Owns(s: State, f: nat, n: NpcId) {
    && f < |s.fights| && s.fights[f].npc == n && s.fights[f].player in s.players
    && Current(s, s.fights[f].player) == Some(f) && n in Holding(s, s.fights[f].player)
  }

  lemma OwnersAgree(w: World, s: State, f: nat, g: nat, n: NpcId)
    requires Inv(w, s) && Owns(s, f, n) && Owns(s, g, n)
    ensures f == g
  {
    assert forall p, q :: n in Holding(s, p) && n in Holding(s, q) ==> p == q;
  }

  lemma EndingOwns(w: World, s: State, f: nat)
    requires f < |s.fights| && s.fights[f].pc.FreeNpc? && LocalOk(w, s, s.fights[f].player)
    ensures Owns(s, f, s.fights[f].npc) && s.fights[f].npc in s.occupied
  {
    assert FightOk(w, s, f);
  }

  lemma GivingUpOwns(w: World, s: State, p: Name)
    requires LocalOk(w, s, p) && p in s.players && s.players[p].pc.EndFree?
    ensures var e := s.players[p].pc.f; e < |s.fights| && Owns(s, e, s.fights[e].npc) && s.fights[e].npc in s.occupied
  {
  }

  /** At most one fight owns an NPC, and the flag is cleared by its owner only: by the
      fight that ends, or by the player who gives that fight up. */
  lemma OneOwner(w: World, s: State, f: nat, g: nat, n: NpcId)
    requires w.Ok() && w.Apart() && Reachable(w, s)
    ensures Owns(s, f, n) && Owns(s, g, n) ==> f == g
    ensures f < |s.fights| && s.fights[f].pc.FreeNpc? ==> Owns(s, f, s.fights[f].npc) && s.fights[f].npc in s.occupied
    ensures forall p :: p in s.players && s.players[p].pc.EndFree? ==>
              var e := s.players[p].pc.f; e < |s.fights| && Owns(s, e, s.fights[e].npc) && s.fights[e].npc in s.occupied
  {
    ReachableInv(w, s);
    if Owns(s, f, n) && Owns(s, g, n) {
      OwnersAgree(w, s, f, g, n);
    }
    if f < |s.fights| && s.fights[f].pc.FreeNpc? {
      EndingOwns(w, s, f);
    }
    forall p | p in s.players && s.players[p].pc.EndFree?
      ensures var e := s.players[p].pc.f; e < |s.fights| && Owns(s, e, s.fights[e].npc) && s.fights[e].npc in s.occupied
    {
      GivingUpOwns(w, s, p);
    }
  }

  /** When every connection is between commands, the occupied NPCs are exactly those named
      by the open fights, and no two open fights name the same one. */
  lemma OccupiedIsOpen(w: World, s: State)
    requires w.Ok() && w.Apart() && Reachable(w, s)
    requires forall p :: p in s.players ==> s.players[p].pc == Idle
    ensures forall p :: p in s.ongoing ==> p in s.players && s.ongoing[p] < |s.fights|
    ensures forall n :: n in s.occupied <==> exists p :: p in s.ongoing && s.fights[s.ongoing[p]].npc == n
    ensures forall p, q :: p in s.ongoing && q in s.ongoing && p != q ==> s.fights[s.ongoing[p]].npc != s.fights[s.ongoing[q]].npc
  {
    ReachableInv(w, s);
    forall p | p in s.ongoing
      ensures p in s.players && s.ongoing[p] < |s.fights| && Holding(s, p) == {s.fights[s.ongoing[p]].npc} <= s.occupied
    {
      assert LocalOk(w, s, p);
    }
    forall n | n in s.occupied ensures exists p :: p in s.ongoing && s.fights[s.ongoing[p]].npc == n {
      var p :| n in Holding(s, p);
      assert LocalOk(w, s, p);
      assert p in s.ongoing;
    }
    forall p, q | p in s.ongoing && q in s.ongoing && p != q
      ensures s.fights[s.ongoing[p]].npc != s.fights[s.ongoing[q]].npc
    {
      assert Holding(s, p) !! Holding(s, q);
    }
  }

  // ---- Every attack is answered ----

  /** Steps the fight goroutine still has to make before it delivers the result. */
  function Left(fpc: FightPC): nat {
    match fpc
    case Computing => 5
    case FreeNpc(_) => 4
    case Unregister(_) => 3
    case FixHP(_) => 2
    case FixStatus(_) => 1
    case _ => 0
  }

  /** A signal always meets a live fight goroutine: the attack channel is open and its
      reader is there, or one step away. */
  lemma SendIsMet(w: World, s: State, p: Name)
    requires w.Ok() && w.Apart() && Reachable(w, s) && p in s.players && s.players[p].pc.AtkSend?
    ensures PointsToFight(s, s.players[p].pc) && !s.fights[s.players[p].pc.f].closed
    ensures var f := s.players[p].pc.f;
            || (exists s' :: Step(w, s, s', Send(p)))
            || (exists s' :: Step(w, s, s', RunFight(f)) && s'.fights[f].pc == Waiting)
  {
    ReachableInv(w, s);
    assert LocalOk(w, s, p);
    var f := s.players[p].pc.f;
    var fight := s.fights[f];
    if fight.pc == Waiting {
      var s' := Goto(s, p, AtkAwait(f)).(fights := s.fights[f := fight.(pc := Computing, sends := fight.sends + 1)]);
      assert Step(w, s, s', Send(p));
    } else {
      var s' := SetFight(s, f, Waiting);
      assert s'.fights[f] != s.fights[f];
      assert Step(w, s, s', RunFight(f));
    }
  }

  /** A player who waits for a result is never left waiting: the fight goroutine has a step
      to make, every one it makes brings the result closer, and nobody else's step can set
      it back. */
  lemma ResultComes(w: World, s: State, p: Name)
    requires w.Ok() && w.Apart() && Reachable(w, s) && p in s.players && s.players[p].pc.AtkAwait?
    ensures var f := s.players[p].pc.f;
            && f < |s.fights| && s.fights[f].sends == s.fights[f].results + 1
            && (exists a, s' :: (a == RunFight(f) || a == Answer(f) || (a.Roll? && a.f == f)) && Step(w, s, s', a))
  {
    ReachableInv(w, s);
    assert LocalOk(w, s, p);
    var f := s.players[p].pc.f;
    assert FightOk(w, s, f);
    var a, s' := FightCanStep(w, s, p);
    assert Step(w, s, s', a);
  }

  lemma FightCanStep(w: World, s: State, p: Name) returns (a: Act, s': State)
    requires w.Ok() && LocalOk(w, s, p) && p in s.players && s.players[p].pc.AtkAwait?
    ensures var f := s.players[p].pc.f; (a == RunFight(f) || a == Answer(f) || (a.Roll? && a.f == f)) && Step(w, s, s', a)
  {
    var f := s.players[p].pc.f;
    assert FightOk(w, s, f);
    var fight := s.fights[f];
    if fight.pc.Computing? {
      var fighter, r := Fighter(7, 7, 10), Rolls(1, 1, 1, 1, 1, 1);
      a, s' := Roll(f, fighter, r), RollStep(w, s, f, fighter, r);
    } else if fight.pc.Deliver? {
      a := Answer(f);
      s' := Goto(s, p, AtkReply(fight.pc.o)).(
              fights := s.fights[f := fight.(pc := if fight.pc.o.over then Done else Waiting, results := fight.results + 1)]);
    } else {
      a, s' := RunFight(f), FightStep(s, f);
      assert s'.fights[f] != s.fights[f];
    }
  }

  /** How a step may change the wait of a player for the result of fight f. */
  ghost predicate Closer(s: State, s': State, p: Name, f: nat, a: Act) {
    && p in s'.players && f < |s.fights| <= |s'.fights|
    && if a == Answer(f) then s'.players[p].pc.AtkReply? && s'.fights[f].results == s.fights[f].results + 1
       else && s'.players[p].pc == AtkAwait(f)
            && if a == RunFight(f) || (a.Roll? && a.f == f) then Left(s'.fights[f].pc) < Left(s.fights[f].pc)
               else s'.fights[f] == s.fights[f]
  }

  lemma ResultComesCloser(w: World, s: State, s': State, p: Name, a: Act)
    requires w.Ok() && w.Apart() && Reachable(w, s) && p in s.players && s.players[p].pc.AtkAwait? && Step(w, s, s', a)
    ensures Closer(s, s', p, s.players[p].pc.f, a)
  {
    ReachableInv(w, s);
    assert LocalOk(w, s, p);
    if Mover(s, a) != p {
      OthersKeepOut(w, s, s', p, a);
    } else {
      OwnFightMoves(w, s, s', p, a);
    }
  }

  lemma OwnFightMoves(w: World, s: State, s': State, p: Name, a: Act)
    requires LocalOk(w, s, p) && p in s.players && s.players[p].pc.AtkAwait? && Step(w, s, s', a) && Mover(s, a) == p
    ensures Closer(s, s', p, s.players[p].pc.f, a)
  {
    assert a.RunFight? || a.Roll? || a.Answer?;
    assert FightOk(w, s, a.f);
    if a.Answer? {
      OwnFightAnswers(w, s, s', p, a.f);
    }
  }

  lemma OwnFightAnswers(w: World, s: State, s': State, p: Name, f: nat)
    requires LocalOk(w, s, p) && p in s.players && s.players[p].pc.AtkAwait? && Step(w, s, s', Answer(f)) && s.fights[f].player == p
    ensures Closer(s, s', p, s.players[p].pc.f, Answer(f))
  {
  }

  lemma OthersKeepOut(w: World, s: State, s': State, p: Name, a: Act)
    requires w.Ok() && w.Apart() && Inv(w, s) && Step(w, s, s', a) && Mover(s, a) != p && p in s.players
    ensures SameFor(s, s', p) && |s'.fights| >= |s.fights|
    ensures forall f :: 0 <= f < |s.fights| && s.fights[f].player == p ==> s'.fights[f] == s.fights[f]
  {
    assert LocalOk(w, s, Mover(s, a));
    StepIsGood(w, s, s', a);
  }

  // ---- Why healers and enemies must not share a zone ----

  /** The whole TALK command. */
  function TalkCommand(w: World, s: State, p: Name): State
    requires p in s.players && s.players[p].pc.TalkRead?
  {
    var s1 := RunTalk(w, s, p);
    if s1.players[p].pc == Idle then s1 else RunTalk(w, RunTalk(w, s1, p), p)
  }

  /** A TALK breaks the agreement of status and registry exactly when it heals a player who
      has a fight open. */
  lemma HealingBreaksSync(w: World, s: State, p: Name)
    requires LocalOk(w, s, p) && p in s.players && s.players[p].pc.TalkRead?
    ensures TalkCommand(w, s, p).players[p].pc == Idle
    ensures InSync(ViewOf(TalkCommand(w, s, p), p)) <==>
            !(p in s.ongoing && s.players[p].hp < MAX_HP && s.players[p].pc.npc in w.healers && Present(w, s, p, s.players[p].pc.npc))
  {
  }

  lemma ReachNext(w: World, s: State, s': State, a: Act)
    requires Reachable(w, s) && Step(w, s, s', a)
    ensures Reachable(w, s')
  {
    var run :| IsRun(w, run) && run[|run| - 1] == s;
    var longer := run + [s'];
    forall i | 0 <= i < |longer| - 1 ensures NextAt(w, longer, i) {
      assert i < |run| - 1 ==> NextAt(w, run, i);
    }
    assert longer[|longer| - 1] == s';
  }
}
