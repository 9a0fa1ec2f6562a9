/** What one command does to its player, from one command boundary to the next, whatever all
    other goroutines do in between: in every run. */
module FightCommands {
  import opened Wrappers
  import opened Combat
  import opened FightProtocol
  import opened FightSafety

  // ---- A command in a run ----

  /** From state a to state b the connection of p runs the command and nothing else. */
  ghost predicate Serves(w: World, run: seq<State>, a: nat, b: nat, p: Name, c: Command) {
    && Under(w, run, a, b, p, c) && p in run[b].players && run[b].players[p].pc == Idle
  }

  /** The command has begun at a and is under way up to b. */
  ghost predicate Under(w: World, run: seq<State>, a: nat, b: nat, p: Name, c: Command) {
    && a < b < |run| && Step(w, run[a], run[a + 1], Begin(p, c))
    && forall k :: a < k < b ==> Busy(run[k], p)
  }

  ghost predicate Busy(s: State, p: Name) {
    p in s.players && s.players[p].pc != Idle
  }

  /** What the steps of all others leave to p, and those of its own fight goroutines while it
      does not wait for one: at most a fight that was given up notices it. */
  ghost predicate KeptFor(s: State, s': State, p: Name) {
    && SameFor(s, s', p) && |s'.fights| >= |s.fights|
    && forall f :: 0 <= f < |s.fights| && s.fights[f].player == p ==> Noticed(s.fights[f], s'.fights[f])
  }

  predicate Noticed(fight: Fight, fight': Fight) {
    fight' == fight || (fight.closed && fight' == fight.(pc := Done))
  }

  predicate Waits(pc: PC) {
    pc.AtkSend? || pc.AtkAwait?
  }

  predicate ByFight(a: Act) {
    a.RunFight? || a.Roll? || a.Answer?
  }

  lemma FightsAside(w: World, s: State, s': State, p: Name, a: Act)
    requires LocalOk(w, s, p) && p in s.players && Step(w, s, s', a) && Mover(s, a) == p && ByFight(a)
    requires !Waits(s.players[p].pc)
    ensures KeptFor(s, s', p)
  {
    assert FightOk(w, s, a.f);
  }

  lemma OthersAside(w: World, s: State, s': State, p: Name, a: Act)
    requires w.Ok() && w.Apart() && Inv(w, s) && p in s.players && Step(w, s, s', a) && Mover(s, a) != p
    ensures KeptFor(s, s', p)
  {
    OthersKeepOut(w, s, s', p, a);
  }

  /** So a busy player's part changes by its own next step only. */
  lemma OwnOrAside(w: World, s: State, s': State, p: Name)
    requires w.Ok() && w.Apart() && Inv(w, s) && Next(w, s, s') && Busy(s, p) && !Waits(s.players[p].pc)
    ensures KeptFor(s, s', p) || Step(w, s, s', Run(p))
  {
    var a :| Step(w, s, s', a);
    if Mover(s, a) != p {
      OthersAside(w, s, s', p, a);
    } else if ByFight(a) {
      FightsAside(w, s, s', p, a);
    }
  }

  // ---- FLEE and the disconnect ----

  /** By its HP: at most 30, at most 60, or more. */
  function ByHP(hp: int): Status {
    if hp <= 30 then Injured else if hp <= 60 then Weakened else Healthy
  }

  ghost predicate SameBody(s: State, t: State, p: Name) {
    p in s.players && p in t.players && t.players[p].loc == s.players[p].loc && t.players[p].hp == s.players[p].hp
  }

  /** The player as before, and the registered fight too. */
  ghost predicate Untouched(s: State, t: State, p: Name) {
    && SameBody(s, t, p) && t.players[p].status == s.players[p].status
    && (p in t.ongoing <==> p in s.ongoing)
    && (p in s.ongoing ==>
          && t.ongoing[p] == s.ongoing[p] && s.ongoing[p] < |s.fights| && s.ongoing[p] < |t.fights|
          && t.fights[s.ongoing[p]] == s.fights[s.ongoing[p]])
  }

  /** Out of the fight it had, which is over for good, or never in one. */
  ghost predicate NoFight(s: State, t: State, p: Name) {
    && SameBody(s, t, p) && p !in t.ongoing
    && (p in s.ongoing ==> s.ongoing[p] < |t.fights| && t.fights[s.ongoing[p]].closed && t.fights[s.ongoing[p]].player == p)
  }

  /** About to give up the fight it had. */
  ghost predicate GivesUp(s: State, t: State, p: Name, f: nat) {
    SameBody(s, t, p) && p in s.ongoing && f == s.ongoing[p] && f < |t.fights| && t.fights[f].player == p
  }

  ghost predicate EndOn(s: State, t: State, p: Name, quits: bool) {
    p in s.players && p in t.players &&
    match t.players[p].pc
    case FleeLookup => !quits && Untouched(s, t, p)
    case CleanLookup => quits && Untouched(s, t, p)
    case EndDelete(f, l) => l == quits && GivesUp(s, t, p, f)
    case EndFree(f, l) => l == quits && GivesUp(s, t, p, f) && p !in t.ongoing
    case EndClose(f, l) => l == quits && GivesUp(s, t, p, f) && p !in t.ongoing
    case FleeStatus => !quits && NoFight(s, t, p) && p in s.ongoing
    case CleanZone => quits && NoFight(s, t, p)
    case CleanOffline => quits && NoFight(s, t, p)
    case Idle =>
      !quits && if p in s.ongoing then NoFight(s, t, p) && t.players[p].status == ByHP(t.players[p].hp) else Untouched(s, t, p)
    case _ => false
  }

  /** The fights p refers to are its own and, while it has not given up, open. */
  ghost predicate Sound(s: State, p: Name) {
    && (p in s.ongoing ==> s.ongoing[p] < |s.fights| && s.fights[s.ongoing[p]].player == p)
    && (p in s.players && s.players[p].pc.EndClose? ==> s.players[p].pc.f < |s.fights| && !s.fights[s.players[p].pc.f].closed)
    && (p in s.players && p in s.ongoing ==> !s.fights[s.ongoing[p]].closed)
  }

  lemma SoundHere(w: World, s: State, p: Name)
    requires LocalOk(w, s, p) && p in s.players && !Waits(s.players[p].pc)
    ensures Sound(s, p)
  {
  }

  lemma EndAside(s: State, t: State, t': State, p: Name, quits: bool)
    requires EndOn(s, t, p, quits) && KeptFor(t, t', p) && Sound(t, p)
    ensures EndOn(s, t', p, quits)
  {
  }

  lemma EndOwn(s: State, t: State, p: Name, quits: bool)
    requires EndOn(s, t, p, quits) && Busy(t, p) && Sound(t, p)
    ensures InEnd(t.players[p].pc) && PointsToFight(t, t.players[p].pc)
    ensures p in RunEnd(t, p).players ==> EndOn(s, RunEnd(t, p), p, quits)
  {
  }

  // ---- MOVE ----

  ghost predicate MoveOn(w: World, s: State, t: State, p: Name, to: ZoneId) {
    p in s.players && p in t.players &&
    match t.players[p].pc
    case MoveGate(z) => z == to && Untouched(s, t, p)
    case ShiftOut(z) => z == to && MayGo(w, s, p, to) && Untouched(s, t, p)
    case ShiftLoc(z) => z == to && MayGo(w, s, p, to) && Untouched(s, t, p)
    case ShiftIn(z) => z == to && MayGo(w, s, p, to) && Arrived(s, t, p, to)
    case Idle => if MayGo(w, s, p, to) then Arrived(s, t, p, to) else Untouched(s, t, p)
    case _ => false
  }

  /** In no fight, and with an exit to the zone. */
  ghost predicate MayGo(w: World, s: State, p: Name, to: ZoneId)
    requires p in s.players
  {
    p !in s.ongoing && ExitTo(w, s.players[p].loc, to)
  }

  ghost predicate ExitTo(w: World, a: ZoneId, b: ZoneId) {
    a in w.exits && b in w.exits[a]
  }

  ghost predicate Arrived(s: State, t: State, p: Name, to: ZoneId) {
    && p in s.players && p in t.players && p !in t.ongoing
    && t.players[p].loc == to && t.players[p].hp == s.players[p].hp && t.players[p].status == s.players[p].status
  }

  lemma MoveOwn(w: World, s: State, t: State, p: Name, to: ZoneId)
    requires MoveOn(w, s, t, p, to) && Busy(t, p)
    ensures InMove(t.players[p].pc) && MoveOn(w, s, RunMove(w, t, p), p, to)
  {
  }

  // ---- TALK ----

  /** A healer in the zone, and something to heal. */
  ghost predicate Heals(w: World, s: State, p: Name, n: NpcId)
    requires p in s.players
  {
    n in w.healers && n in w.npcZone && w.npcZone[n] == s.players[p].loc && s.players[p].hp < 100
  }

  ghost predicate TalkOn(w: World, s: State, t: State, p: Name, n: NpcId) {
    p in s.players && p in t.players &&
    match t.players[p].pc
    case TalkRead(m) => m == n && Untouched(s, t, p)
    case HealHP => Heals(w, s, p, n) && Untouched(s, t, p)
    case HealStatus => Heals(w, s, p, n) && p in t.players && t.players[p].hp == 100 && t.players[p].loc == s.players[p].loc
    case Idle => if Heals(w, s, p, n) then Healed(s, t, p) else Untouched(s, t, p)
    case _ => false
  }

  ghost predicate Healed(s: State, t: State, p: Name)
    requires p in s.players && p in t.players
  {
    t.players[p].hp == 100 && t.players[p].status == Healthy && t.players[p].loc == s.players[p].loc
  }

  lemma TalkOwn(w: World, s: State, t: State, p: Name, n: NpcId)
    requires TalkOn(w, s, t, p, n) && Busy(t, p)
    ensures InTalk(t.players[p].pc) && TalkOn(w, s, RunTalk(w, t, p), p, n)
  {
  }

  // ---- Any of them, along a run ----

  ghost predicate On(w: World, s: State, t: State, p: Name, c: Command) {
    match c
    case Flee => EndOn(s, t, p, false)
    case Quit => EndOn(s, t, p, true)
    case Move(to) => MoveOn(w, s, t, p, to)
    case Talk(n) => TalkOn(w, s, t, p, n)
    case Attack(_) => false
  }

  lemma Aside(w: World, s: State, t: State, t': State, p: Name, c: Command)
    requires On(w, s, t, p, c) && KeptFor(t, t', p) && Sound(t, p)
    ensures On(w, s, t', p, c)
  {
    match c {
      case Flee => EndAside(s, t, t', p, false);
      case Quit => EndAside(s, t, t', p, true);
      case _ =>
    }
  }

  lemma CanRun(w: World, s: State, t: State, p: Name, c: Command)
    requires On(w, s, t, p, c) && Busy(t, p) && Sound(t, p)
    ensures !Waits(t.players[p].pc) && exists t' :: Step(w, t, t', Run(p))
  {
    match c {
      case Flee => EndOwn(s, t, p, false); assert Step(w, t, RunEnd(t, p), Run(p));
      case Quit => EndOwn(s, t, p, true); assert Step(w, t, RunEnd(t, p), Run(p));
      case Move(to) => MoveOwn(w, s, t, p, to); assert Step(w, t, RunMove(w, t, p), Run(p));
      case Talk(n) => TalkOwn(w, s, t, p, n); assert Step(w, t, RunTalk(w, t, p), Run(p));
    }
  }

  lemma Own(w: World, s: State, t: State, t': State, p: Name, c: Command)
    requires On(w, s, t, p, c) && Busy(t, p) && Sound(t, p) && Step(w, t, t', Run(p)) && p in t'.players
    ensures On(w, s, t', p, c)
  {
    RunUnfolds(w, t, t', p);
    match c {
      case Flee => EndOwn(s, t, p, false);
      case Quit => EndOwn(s, t, p, true);
      case Move(to) => MoveOwn(w, s, t, p, to);
      case Talk(n) => TalkOwn(w, s, t, p, n);
    }
  }

  lemma Starts(w: World, s: State, t: State, p: Name, c: Command)
    requires Sound(s, p) && Step(w, s, t, Begin(p, c)) && !c.Attack?
    ensures On(w, s, t, p, c)
  {
  }

  lemma SoundNow(w: World, run: seq<State>, k: nat, p: Name)
    requires w.Ok() && w.Apart() && IsRun(w, run) && k < |run| && p in run[k].players && !Waits(run[k].players[p].pc)
    ensures Inv(w, run[k]) && Sound(run[k], p)
  {
    RunKeeps(w, run, k);
    assert LocalOk(w, run[k], p);
    SoundHere(w, run[k], p);
  }

  lemma OnNext(w: World, run: seq<State>, a: nat, k: nat, p: Name, c: Command)
    requires w.Ok() && w.Apart() && IsRun(w, run) && a < k && k + 1 < |run| && p in run[k + 1].players
    requires Busy(run[k], p) && On(w, run[a], run[k], p, c)
    ensures On(w, run[a], run[k + 1], p, c)
  {
    assert !Waits(run[k].players[p].pc);
    SoundNow(w, run, k, p);
    assert NextAt(w, run, k);
    OwnOrAside(w, run[k], run[k + 1], p);
    if KeptFor(run[k], run[k + 1], p) {
      Aside(w, run[a], run[k], run[k + 1], p, c);
    } else {
      Own(w, run[a], run[k], run[k + 1], p, c);
    }
  }

  lemma {:induction false} Along(w: World, run: seq<State>, a: nat, k: nat, p: Name, c: Command)
    requires w.Ok() && w.Apart() && IsRun(w, run) && Under(w, run, a, k, p, c) && p in run[k].players && !c.Attack?
    ensures On(w, run[a], run[k], p, c)
    decreases k
  {
    if k == a + 1 {
      SoundNow(w, run, a, p);
      Starts(w, run[a], run[k], p, c);
    } else {
      Along(w, run, a, k - 1, p, c);
      OnNext(w, run, a, k - 1, p, c);
    }
  }

  // ---- What they come to ----

  /** On the way such a command always has a next step of its own to make. */
  lemma GoesOn(w: World, run: seq<State>, a: nat, k: nat, p: Name, c: Command)
    requires w.Ok() && w.Apart() && IsRun(w, run) && Under(w, run, a, k, p, c) && Busy(run[k], p) && !c.Attack?
    ensures exists s' :: Step(w, run[k], s', Run(p))
  {
    Along(w, run, a, k, p, c);
    assert !Waits(run[k].players[p].pc);
    SoundNow(w, run, k, p);
    CanRun(w, run[a], run[k], p, c);
  }

  /** FLEE, in every run: the fight is gone from the registry and closed for good, its NPC is
      free or somebody else's, and the status is the one that the HP gives. HP and place stay, and
      without a fight everything does. */
  lemma FleeEndsTheFight(w: World, run: seq<State>, a: nat, b: nat, p: Name)
    requires w.Ok() && w.Apart() && IsRun(w, run) && Serves(w, run, a, b, p, Flee)
    ensures var s, t := run[a], run[b];
      && SameBody(s, t, p) && p !in t.ongoing
      && (p !in s.ongoing ==> t.players[p] == s.players[p])
      && (p in s.ongoing ==>
            && s.ongoing[p] < |s.fights| && s.ongoing[p] < |t.fights| && t.fights[s.ongoing[p]].closed
            && t.players[p].status == ByHP(t.players[p].hp)
            && (s.fights[s.ongoing[p]].npc in t.occupied ==> exists q :: q != p && s.fights[s.ongoing[p]].npc in Holding(t, q)))
  {
    Along(w, run, a, b, p, Flee);
    RunKeeps(w, run, b);
    SoundNow(w, run, a, p);
    assert LocalOk(w, run[b], p);
  }

  /** MOVE, in every run: the player stands in the zone, and in no other, if there is an exit to
      it and no fight; otherwise nothing has changed. */
  lemma MoveArrives(w: World, run: seq<State>, a: nat, b: nat, p: Name, to: ZoneId)
    requires w.Ok() && w.Apart() && IsRun(w, run) && Serves(w, run, a, b, p, Move(to))
    ensures var s, t := run[a], run[b];
      && t.players[p] == s.players[p].(loc := if MayGo(w, s, p, to) then to else s.players[p].loc)
      && (p in t.ongoing <==> p in s.ongoing) && (p in s.ongoing ==> t.ongoing[p] == s.ongoing[p])
      && t.players[p].loc in t.inZone && forall z :: z in t.inZone ==> (p in t.inZone[z] <==> z == t.players[p].loc)
  {
    Along(w, run, a, b, p, Move(to));
    RunKeeps(w, run, b);
    assert LocalOk(w, run[b], p);
  }

  /** TALK, in every run: a healer in the zone brings a hurt player to full HP and good health;
      otherwise, and apart from that, nothing has changed. */
  lemma TalkHealsFully(w: World, run: seq<State>, a: nat, b: nat, p: Name, n: NpcId)
    requires w.Ok() && w.Apart() && IsRun(w, run) && Serves(w, run, a, b, p, Talk(n))
    ensures var s, t := run[a], run[b];
      && t.players[p] == (if Heals(w, s, p, n) then s.players[p].(hp := 100, status := Healthy) else s.players[p])
      && (!Heals(w, s, p, n) ==> (p in t.ongoing <==> p in s.ongoing))
  {
    Along(w, run, a, b, p, Talk(n));
  }

  /** A disconnect, in every run: it does not return to the command boundary, and once the session
      is gone the player is in no fight and no zone, and the fight it had is closed. */
  lemma QuitLeavesNothing(w: World, run: seq<State>, a: nat, b: nat, p: Name)
    requires w.Ok() && w.Apart() && IsRun(w, run) && Under(w, run, a, b, p, Quit) && !Busy(run[b], p)
    ensures var s, t := run[a], run[b];
      && p !in t.players && p !in t.ongoing && (forall z :: z in t.inZone ==> p !in t.inZone[z])
      && (p in s.ongoing ==> s.ongoing[p] < |t.fights| && t.fights[s.ongoing[p]].closed)
  {
    if p in run[b].players {
      Along(w, run, a, b, p, Quit);
    }
    RunKeeps(w, run, b);
    assert LocalOk(w, run[b], p);
    QuitCloses(w, run, a, b, p);
  }

  lemma QuitCloses(w: World, run: seq<State>, a: nat, b: nat, p: Name)
    requires w.Ok() && w.Apart() && IsRun(w, run) && Under(w, run, a, b, p, Quit) && p !in run[b].players
    ensures var s, t := run[a], run[b]; p in s.ongoing ==> s.ongoing[p] < |t.fights| && t.fights[s.ongoing[p]].closed
  {
    assert p in run[a + 1].players;
    Along(w, run, a, b - 1, p, Quit);
    SoundNow(w, run, b - 1, p);
    assert NextAt(w, run, b - 1);
    OwnOrAside(w, run[b - 1], run[b], p);
    RunUnfolds(w, run[b - 1], run[b], p);
    EndOwn(run[a], run[b - 1], p, true);
  }

  /** A newcomer stands in the starting zone and in no other, in full health and in no fight. */
  lemma NewcomerIsFresh(w: World, run: seq<State>, j: nat, p: Name)
    requires w.Ok() && w.Apart() && IsRun(w, run) && j + 1 < |run| && Step(w, run[j], run[j + 1], Connect(p))
    ensures var t := run[j + 1];
      && p in t.players && t.players[p].hp == 100 && t.players[p].status == Healthy && t.players[p].pc == Idle && p !in t.ongoing
      && w.start in t.inZone && forall z :: z in t.inZone ==> (p in t.inZone[z] <==> z == w.start)
  {
    RunKeeps(w, run, j);
    RunKeeps(w, run, j + 1);
    assert LocalOk(w, run[j], p) && LocalOk(w, run[j + 1], p);
  }
}
