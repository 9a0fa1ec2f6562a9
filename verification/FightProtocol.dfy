/** Players, fights and zones as the server's goroutines see them: every critical section,
    and every meeting on an unbuffered channel, is one step. A connection goroutine runs
    the commands of one player, a fight goroutine the rounds of one fight, and their steps
    interleave in any order. */
module FightProtocol {
  import opened Wrappers
  import opened Combat

  type Name = string
  type NpcId = string
  type ZoneId = string

  const MAX_HP := 100

  datatype Enemy = Enemy(hp: int, stats: Fighter)

  /** An enemy that may be left standing by a player's blow: it can dodge, or has more HP than
      the least that a hit costs. Any other falls to the first blow it receives. */
  predicate Outlasts(e: Enemy) {
    e.stats.dexterity >= 1 || e.hp > 8
  }

  datatype World = World(
    zones: set<ZoneId>, exits: map<ZoneId, set<ZoneId>>,
    npcZone: map<NpcId, ZoneId>, hostile: map<NpcId, Enemy>, healers: set<NpcId>,
    start: ZoneId, respawn: ZoneId)
  {
    /** What the load-time validation leaves: NPCs stand in one zone each, exits lead to
        zones, enemies have positive HP and stats the damage rolls can use. */
    ghost predicate Ok() {
      && start in zones && respawn in zones
      && (forall z :: z in zones ==> z in exits && exits[z] <= zones)
      && (forall n :: n in npcZone ==> npcZone[n] in zones)
      && (forall n :: n in hostile ==>
           hostile[n].hp > 0 && hostile[n].stats.strength >= 1 && hostile[n].stats.battleSkill >= 1)
    }

    /** No zone holds both a healer and an enemy that may outlast a round. Nothing checks this
        at load time. */
    ghost predicate Apart() {
      forall h, e :: h in healers && e in hostile && h in npcZone && e in npcZone && Outlasts(hostile[e]) ==> npcZone[h] != npcZone[e]
    }
  }

  datatype Status = Healthy | Weakened | Injured | Engaged

  function StatusOf(hp: int): Status {
    if hp * 10 <= MAX_HP * 3 then Injured else if hp * 10 <= MAX_HP * 6 then Weakened else Healthy
  }

  /** Where a connection goroutine stands. Idle is the only command boundary. */
  datatype PC =
    | Idle
    // ATTACK
    | AtkStatus(npc: NpcId) | AtkLookup | AtkOccupy(npc: NpcId) | AtkRegister(npc: NpcId)
    | AtkEngage(f: nat) | AtkSpawn(f: nat) | AtkSend(f: nat) | AtkAwait(f: nat) | AtkReply(o: Outcome)
    // MOVE, and the respawn after a lost fight
    | MoveGate(to: ZoneId) | ShiftOut(to: ZoneId) | ShiftLoc(to: ZoneId) | ShiftIn(to: ZoneId)
    // FLEE, and the end of a fight on disconnect
    | FleeLookup | EndDelete(f: nat, leaving: bool) | EndFree(f: nat, leaving: bool) | EndClose(f: nat, leaving: bool) | FleeStatus
    // TALK
    | TalkRead(npc: NpcId) | HealHP | HealStatus
    // disconnect
    | CleanLookup | CleanZone | CleanOffline
    // the ATTACK error branch, a second close, a send on a closed channel
    | Broken

  datatype FightPC =
    | Created | Started | Waiting | Computing
    | FreeNpc(o: Outcome) | Unregister(o: Outcome) | FixHP(o: Outcome) | FixStatus(o: Outcome)
    | Deliver(o: Outcome) | Done

  datatype Player = Player(pc: PC, loc: ZoneId, hp: int, status: Status)

  /** closed is the state of the attack channel; sends and results count its meetings and
      those on the result channel. */
  datatype Fight = Fight(player: Name, npc: NpcId, hp: int, pc: FightPC, closed: bool, sends: nat, results: nat)

  datatype State = State(
    players: map<Name, Player>,         // online players
    inZone: map<ZoneId, set<Name>>,
    occupied: set<NpcId>,
    ongoing: map<Name, nat>,            // OngoingBattles, by player name
    fights: seq<Fight>)                 // every fight ever started

  // ---- Steps ----

  datatype Command = Attack(npc: NpcId) | Move(to: ZoneId) | Flee | Talk(npc: NpcId) | Quit

  datatype Act =
    | Connect(p: Name)
    | Begin(p: Name, c: Command)
    | Run(p: Name)
    | Send(p: Name)
    | RunFight(f: nat)
    | Roll(f: nat, fighter: Fighter, rolls: Rolls)
    | Answer(f: nat)

  function Goto(s: State, p: Name, pc: PC): State
    requires p in s.players
  {
    s.(players := s.players[p := s.players[p].(pc := pc)])
  }

  function SetFight(s: State, f: nat, fpc: FightPC): State
    requires f < |s.fights|
  {
    s.(fights := s.fights[f := s.fights[f].(pc := fpc)])
  }

  function Leave(s: State, z: ZoneId, p: Name): State {
    if z in s.inZone then s.(inZone := s.inZone[z := s.inZone[z] - {p}]) else s
  }

  function Enter(s: State, z: ZoneId, p: Name): State {
    if z in s.inZone then s.(inZone := s.inZone[z := s.inZone[z] + {p}]) else s
  }

  predicate Present(w: World, s: State, p: Name, n: NpcId)
    requires p in s.players
  {
    n in w.npcZone && w.npcZone[n] == s.players[p].loc
  }

  function BeginPC(c: Command): PC {
    match c
    case Attack(n) => AtkStatus(n)
    case Move(to) => MoveGate(to)
    case Flee => FleeLookup
    case Talk(n) => TalkRead(n)
    case Quit => CleanLookup
  }

  predicate InAttack(pc: PC) {
    pc.AtkStatus? || pc.AtkLookup? || pc.AtkOccupy? || pc.AtkRegister? || pc.AtkEngage? || pc.AtkSpawn? || pc.AtkReply?
  }

  predicate InMove(pc: PC) {
    pc.MoveGate? || pc.ShiftOut? || pc.ShiftLoc? || pc.ShiftIn?
  }

  predicate InEnd(pc: PC) {
    pc.FleeLookup? || pc.EndDelete? || pc.EndFree? || pc.EndClose? || pc.FleeStatus?
    || pc.CleanLookup? || pc.CleanZone? || pc.CleanOffline?
  }

  predicate InTalk(pc: PC) {
    pc.TalkRead? || pc.HealHP? || pc.HealStatus?
  }

  predicate PointsToFight(s: State, pc: PC) {
    (pc.AtkEngage? || pc.AtkSpawn? || pc.AtkSend? || pc.AtkAwait? || pc.EndDelete? || pc.EndFree? || pc.EndClose?) ==> pc.f < |s.fights|
  }

  function RunAttack(w: World, s: State, p: Name): State
    requires p in s.players && InAttack(s.players[p].pc) && PointsToFight(s, s.players[p].pc)
  {
    var me := s.players[p];
    match me.pc
    case AtkStatus(n) =>
      if me.status == Engaged then Goto(s, p, AtkLookup)
      else if Present(w, s, p, n) then Goto(s, p, AtkOccupy(n)) else Goto(s, p, Idle)
    case AtkLookup =>
      if p in s.ongoing then Goto(s, p, AtkSend(s.ongoing[p])) else Goto(s, p, Broken)
    case AtkOccupy(n) =>
      if n in w.hostile && n !in s.occupied
      then Goto(s, p, AtkRegister(n)).(occupied := s.occupied + {n})
      else Goto(s, p, Idle)
    case AtkRegister(n) =>
      var hp := if n in w.hostile then w.hostile[n].hp else 0;
      Goto(s, p, AtkEngage(|s.fights|)).(
        fights := s.fights + [Fight(p, n, hp, Created, false, 0, 0)],
        ongoing := s.ongoing[p := |s.fights|])
    case AtkEngage(f) => s.(players := s.players[p := me.(pc := AtkSpawn(f), status := Engaged)])
    case AtkSpawn(f) => Goto(SetFight(s, f, Started), p, AtkSend(f))
    case AtkReply(o) => Goto(s, p, if o.report.playerHP <= 0 then ShiftOut(w.respawn) else Idle)
  }

  function RunMove(w: World, s: State, p: Name): State
    requires p in s.players && InMove(s.players[p].pc)
  {
    var me := s.players[p];
    match me.pc
    case MoveGate(to) =>
      if p in s.ongoing then Goto(s, p, Idle)
      else if me.loc in w.exits && to in w.exits[me.loc] then Goto(s, p, ShiftOut(to)) else Goto(s, p, Idle)
    case ShiftOut(to) => Goto(Leave(s, me.loc, p), p, ShiftLoc(to))
    case ShiftLoc(to) => s.(players := s.players[p := me.(pc := ShiftIn(to), loc := to)])
    case ShiftIn(to) => Goto(Enter(s, to, p), p, Idle)
  }

  function RunEnd(s: State, p: Name): State
    requires p in s.players && InEnd(s.players[p].pc) && PointsToFight(s, s.players[p].pc)
  {
    var me := s.players[p];
    match me.pc
    case FleeLookup => Goto(s, p, if p in s.ongoing then EndDelete(s.ongoing[p], false) else Idle)
    case CleanLookup => Goto(s, p, if p in s.ongoing then EndDelete(s.ongoing[p], true) else CleanZone)
    case EndDelete(f, l) => Goto(s, p, EndFree(f, l)).(ongoing := s.ongoing - {p})
    case EndFree(f, l) => Goto(s, p, EndClose(f, l)).(occupied := s.occupied - {s.fights[f].npc})
    case EndClose(f, l) =>
      if s.fights[f].closed then Goto(s, p, Broken)
      else Goto(s, p, if l then CleanZone else FleeStatus).(fights := s.fights[f := s.fights[f].(closed := true)])
    case FleeStatus => s.(players := s.players[p := me.(pc := Idle, status := StatusOf(me.hp))])
    case CleanZone => Goto(Leave(s, me.loc, p), p, CleanOffline)
    case CleanOffline => s.(players := s.players - {p})
  }

  function RunTalk(w: World, s: State, p: Name): State
    requires p in s.players && InTalk(s.players[p].pc)
  {
    var me := s.players[p];
    match me.pc
    case TalkRead(n) => Goto(s, p, if Present(w, s, p, n) && n in w.healers && me.hp < MAX_HP then HealHP else Idle)
    case HealHP => s.(players := s.players[p := me.(pc := HealStatus, hp := MAX_HP)])
    case HealStatus => s.(players := s.players[p := me.(pc := Idle, status := StatusOf(me.hp))])
  }

  /** The fight goroutine between its channel operations. */
  function FightStep(s: State, f: nat): State
    requires f < |s.fights| && s.fights[f].player in s.players
  {
    var fight := s.fights[f];
    var p := fight.player;
    var me := s.players[p];
    match fight.pc
    case Started => SetFight(s, f, Waiting)
    case FreeNpc(o) => SetFight(s, f, Unregister(o)).(occupied := s.occupied - {fight.npc})
    case Unregister(o) => SetFight(s, f, FixHP(o)).(ongoing := s.ongoing - {p})
    case FixHP(o) => SetFight(s, f, FixStatus(o)).(players := s.players[p := me.(hp := AfterFight(me.hp, MAX_HP))])
    case FixStatus(o) => SetFight(s, f, Deliver(o)).(players := s.players[p := me.(status := StatusOf(me.hp))])
    case _ => s
  }

  /** What a player fights with: quests raise the battle skill, nothing else ever changes. */
  predicate IsPlayer(f: Fighter) {
    f.strength == 7 && f.dexterity == 10 && f.battleSkill >= 7
  }

  function RollStep(w: World, s: State, f: nat, fighter: Fighter, r: Rolls): State
    requires f < |s.fights| && s.fights[f].player in s.players && s.fights[f].npc in w.hostile
  {
    var fight := s.fights[f];
    var me := s.players[fight.player];
    var o := Round(fighter, w.hostile[fight.npc].stats, me.hp, fight.hp, r);
    s.(players := s.players[fight.player := me.(hp := o.currHP)],
       fights := s.fights[f := fight.(hp := o.npcHP, pc := if o.over then FreeNpc(o) else Deliver(o))])
  }

  ghost predicate Step(w: World, s: State, s': State, a: Act) {
    match a
    case Connect(p) =>
      && p !in s.players
      && s' == Enter(s, w.start, p).(players := s.players[p := Player(Idle, w.start, MAX_HP, Healthy)])
    case Begin(p, c) =>
      p in s.players && s.players[p].pc == Idle && s' == Goto(s, p, BeginPC(c))
    case Run(p) =>
      && p in s.players && PointsToFight(s, s.players[p].pc)
      && var pc := s.players[p].pc;
         || (InAttack(pc) && s' == RunAttack(w, s, p))
         || (InMove(pc) && s' == RunMove(w, s, p))
         || (InEnd(pc) && s' == RunEnd(s, p))
         || (InTalk(pc) && s' == RunTalk(w, s, p))
    case Send(p) =>
      && p in s.players && s.players[p].pc.AtkSend? && PointsToFight(s, s.players[p].pc)
      && var f := s.players[p].pc.f; var fight := s.fights[f];
         || (fight.closed && s' == Goto(s, p, Broken))
         || (!fight.closed && fight.pc == Waiting
             && s' == Goto(s, p, AtkAwait(f)).(fights := s.fights[f := fight.(pc := Computing, sends := fight.sends + 1)]))
    case RunFight(f) =>
      && f < |s.fights|
      && var fight := s.fights[f];
         if fight.pc == Waiting then fight.closed && s' == SetFight(s, f, Done)
         else fight.player in s.players && s' == FightStep(s, f) && s' != s
    case Roll(f, fighter, r) =>
      && f < |s.fights| && s.fights[f].pc == Computing
      && s.fights[f].player in s.players && s.fights[f].npc in w.hostile
      && IsPlayer(fighter) && Legal(fighter, w.hostile[s.fights[f].npc].stats, r)
      && s' == RollStep(w, s, f, fighter, r)
    case Answer(f) =>
      && f < |s.fights| && s.fights[f].pc.Deliver?
      && var fight := s.fights[f];
         && fight.player in s.players && s.players[fight.player].pc == AtkAwait(f)
         && s' == Goto(s, fight.player, AtkReply(fight.pc.o)).(
                    fights := s.fights[f := fight.(pc := if fight.pc.o.over then Done else Waiting, results := fight.results + 1)])
  }

  ghost predicate Next(w: World, s: State, s': State) {
    exists a :: Step(w, s, s', a)
  }

  function Init(w: World): State {
    State(map[], map z | z in w.zones :: {}, {}, map[], [])
  }

  // ---- What every state satisfies ----

  /** The fight a connection goroutine has in its hands, or else the registered one. */
  function Current(s: State, p: Name): Option<nat>
    requires p in s.players
  {
    match s.players[p].pc
    case AtkEngage(f) => Some(f)
    case AtkSpawn(f) => Some(f)
    case AtkSend(f) => Some(f)
    case AtkAwait(f) => Some(f)
    case EndDelete(f, _) => Some(f)
    case EndFree(f, _) => Some(f)
    case EndClose(f, _) => Some(f)
    case _ => if p in s.ongoing then Some(s.ongoing[p]) else None
  }

  /** All of the state that one player's steps depend on. */
  datatype View = View(me: Player, registered: Option<nat>, current: Option<nat>, fight: Option<Fight>)

  function ViewOf(s: State, p: Name): View
    requires p in s.players
  {
    var c := Current(s, p);
    View(s.players[p], if p in s.ongoing then Some(s.ongoing[p]) else None, c,
         if c.Some? && c.value < |s.fights| then Some(s.fights[c.value]) else None)
  }

  predicate Released(fpc: FightPC) {
    fpc.Unregister? || fpc.FixHP? || fpc.FixStatus? || (fpc.Deliver? && fpc.o.over) || fpc.Done?
  }

  /** The NPC a player's activity keeps occupied, as a set of at most one. */
  function Held(v: View): set<NpcId> {
    if v.me.pc.AtkRegister? then {v.me.pc.npc}
    else if v.fight.Some? && !v.me.pc.EndClose? && !Released(v.fight.value.pc) then {v.fight.value.npc}
    else {}
  }

  function Holding(s: State, p: Name): set<NpcId> {
    if p in s.players then Held(ViewOf(s, p)) else {}
  }

  predicate OutcomeOk(o: Outcome) {
    o.over <==> o.report.playerHP <= 0 || o.report.npcHP <= 0
  }

  /** No fight, and the status says so. */
  predicate Unengaged(v: View) {
    v.registered == None && v.me.status != Engaged
  }

  predicate Registered(v: View) {
    v.registered.Some? && v.registered == v.current && v.fight.Some?
  }

  /** Status and registry agree, and a registered fight has had a round and waits for the next
      attack. */
  predicate InSync(v: View) {
    if v.registered.Some?
    then Registered(v) && v.fight.value.pc == Waiting && v.fight.value.results >= 1 && v.me.status == Engaged
    else v.me.status != Engaged
  }

  predicate AwaitOk(v: View) {
    && v.fight.Some?
    && var fpc := v.fight.value.pc;
    && (fpc.Computing? || fpc.FreeNpc? || fpc.Unregister? || fpc.FixHP? || fpc.FixStatus? || fpc.Deliver?)
    && (if fpc.FixHP? || fpc.FixStatus? || (fpc.Deliver? && fpc.o.over) then v.registered == None else Registered(v))
    && (v.me.status == Engaged <==> !(fpc.Deliver? && fpc.o.over))
    && v.me.hp <= MAX_HP && (fpc.Computing? || fpc.FixStatus? || fpc.Deliver? ==> v.me.hp >= 1)
    && (!fpc.Computing? ==> OutcomeOk(fpc.o) && (!fpc.Deliver? ==> fpc.o.over))
  }

  predicate HasUnstarted(v: View) {
    Registered(v) && v.fight.value.pc == Created
  }

  predicate HasWaiting(v: View) {
    v.fight.Some? && v.fight.value.pc == Waiting
  }

  predicate At(w: World, v: View, n: NpcId) {
    n in w.npcZone && w.npcZone[n] == v.me.loc
  }

  /** What a connection goroutine may rely on, by where it stands. */
  predicate PCOk(w: World, v: View) {
    match v.me.pc
    case Idle => InSync(v)
    case AtkStatus(_) => InSync(v)
    case AtkLookup => InSync(v) && v.registered.Some?
    case AtkOccupy(n) => Unengaged(v) && At(w, v, n)
    case AtkRegister(n) => Unengaged(v) && At(w, v, n) && n in w.hostile
    case AtkEngage(_) => HasUnstarted(v) && v.me.status != Engaged
    case AtkSpawn(_) => HasUnstarted(v) && v.me.status == Engaged
    case AtkSend(_) => Registered(v) && (v.fight.value.pc == Started || v.fight.value.pc == Waiting) && v.me.status == Engaged
    case AtkAwait(_) => AwaitOk(v)
    case AtkReply(o) => InSync(v) && OutcomeOk(o) && (o.over <==> v.registered == None)
    case MoveGate(_) => InSync(v)
    case ShiftOut(to) => Unengaged(v) && to in w.zones
    case ShiftLoc(to) => Unengaged(v) && to in w.zones
    case ShiftIn(to) => Unengaged(v) && v.me.loc == to
    case FleeLookup => InSync(v)
    case EndDelete(_, _) => Registered(v) && HasWaiting(v)
    case EndFree(_, _) => v.registered == None && HasWaiting(v)
    case EndClose(_, _) => v.registered == None && HasWaiting(v)
    case FleeStatus => v.registered == None
    case TalkRead(_) => InSync(v)
    case HealHP => Unengaged(v)
    case HealStatus => Unengaged(v)
    case CleanLookup => InSync(v)
    case CleanZone => v.registered == None
    case CleanOffline => v.registered == None
    case Broken => false
  }

  predicate ViewOk(w: World, p: Name, v: View) {
    && v.me.loc in w.zones
    && (!v.me.pc.AtkAwait? ==> 1 <= v.me.hp <= MAX_HP)
    && (v.current.Some? ==> v.fight.Some?)
    && (v.fight.Some? ==> v.fight.value.player == p && !v.fight.value.closed && At(w, v, v.fight.value.npc))
    && PCOk(w, v)
  }

  predicate Between(pc: PC) {
    pc.ShiftLoc? || pc.ShiftIn? || pc.CleanOffline?
  }

  /** A player stands in the zone their location names, or is between two. */
  ghost predicate Placed(s: State, p: Name)
    requires p in s.players
  {
    forall z :: z in s.inZone ==> (p in s.inZone[z] <==> z == s.players[p].loc && !Between(s.players[p].pc))
  }

  ghost predicate PlayerOk(w: World, s: State, p: Name) {
    if p in s.players
    then Placed(s, p) && ViewOk(w, p, ViewOf(s, p)) && Holding(s, p) <= s.occupied
    else p !in s.ongoing && forall z :: z in s.inZone ==> p !in s.inZone[z]
  }

  predicate Live(fight: Fight) {
    !fight.closed && fight.pc != Done
  }

  predicate FightOk(w: World, s: State, f: nat)
    requires f < |s.fights|
  {
    var fight := s.fights[f];
    && (Live(fight) ==> fight.player in s.players && Current(s, fight.player) == Some(f))
    && (fight.closed ==> fight.pc == Waiting || fight.pc == Done)
    && fight.npc in w.hostile
    && fight.hp <= w.hostile[fight.npc].hp && (fight.pc in {Created, Started} ==> fight.results == 0)
    && ((fight.pc == Waiting && fight.results >= 1) || (fight.pc.Deliver? && !fight.pc.o.over) ==> Outlasts(w.hostile[fight.npc]))
    && (fight.pc in {Created, Started, Waiting, Computing} || (fight.pc.Deliver? && !fight.pc.o.over) ==> fight.hp > 0)
    && fight.sends == fight.results + (if fight.pc in {Created, Started, Waiting, Done} then 0 else 1)
  }

  ghost predicate OwnFights(w: World, s: State, p: Name) {
    forall f :: 0 <= f < |s.fights| && s.fights[f].player == p ==> FightOk(w, s, f)
  }

  ghost predicate LocalOk(w: World, s: State, p: Name) {
    s.inZone.Keys == w.zones && PlayerOk(w, s, p) && OwnFights(w, s, p)
  }

  ghost predicate Exclusive(s: State) {
    && (forall n :: n in s.occupied ==> exists p :: n in Holding(s, p))
    && (forall p, q :: p != q ==> Holding(s, p) !! Holding(s, q))
  }

  ghost predicate Inv(w: World, s: State) {
    (forall p :: LocalOk(w, s, p)) && Exclusive(s)
  }

  // ---- A step of one player's goroutines leaves every other player alone ----

  ghost predicate SameFor(s: State, s': State, q: Name) {
    && (q in s'.players <==> q in s.players) && (q in s.players ==> s'.players[q] == s.players[q])
    && (q in s'.ongoing <==> q in s.ongoing) && (q in s.ongoing ==> s'.ongoing[q] == s.ongoing[q])
    && (forall z :: z in s.inZone && z in s'.inZone ==> (q in s'.inZone[z] <==> q in s.inZone[z]))
  }

  ghost predicate OnlyTouches(s: State, s': State, p: Name) {
    && s'.inZone.Keys == s.inZone.Keys
    && (forall q :: q != p ==> SameFor(s, s', q))
    && |s'.fights| >= |s.fights|
    && (forall f :: 0 <= f < |s.fights| ==>
         s'.fights[f].player == s.fights[f].player && (s.fights[f].player != p ==> s'.fights[f] == s.fights[f]))
    && (forall f :: |s.fights| <= f < |s'.fights| ==> s'.fights[f].player == p)
  }

  lemma FrameView(w: World, s: State, s': State, p: Name, q: Name)
    requires LocalOk(w, s, q) && OnlyTouches(s, s', p) && q in s.players && q != p
    ensures q in s'.players && ViewOf(s', q) == ViewOf(s, q)
  {
    assert SameFor(s, s', q);
    var c := Current(s, q);
    if c.Some? {
      assert s.fights[c.value].player == q;
    }
  }

  /** A change by one player's goroutines that is right for that player, occupies only what
      was free and frees only what the player held. */
  ghost predicate GoodChange(w: World, s: State, s': State, p: Name) {
    && OnlyTouches(s, s', p) && LocalOk(w, s', p)
    && s'.occupied == s.occupied - Holding(s, p) + Holding(s', p)
    && Holding(s', p) !! s.occupied - Holding(s, p)
  }

  lemma FrameLocal(w: World, s: State, s': State, p: Name, q: Name)
    requires Inv(w, s) && GoodChange(w, s, s', p) && q != p
    ensures LocalOk(w, s', q) && Holding(s', q) == Holding(s, q)
  {
    assert LocalOk(w, s, q) && SameFor(s, s', q);
    if q in s.players {
      FrameView(w, s, s', p, q);
      assert Holding(s, q) !! Holding(s, p);
    }
    forall f | 0 <= f < |s'.fights| && s'.fights[f].player == q ensures FightOk(w, s', f) {
      assert FightOk(w, s, f);
    }
  }

  /** The plan of every preservation proof: check the moving player, frame the rest. */
  lemma Assemble(w: World, s: State, s': State, p: Name)
    requires Inv(w, s) && GoodChange(w, s, s', p)
    ensures Inv(w, s')
  {
    forall q | q != p ensures LocalOk(w, s', q) && Holding(s', q) == Holding(s, q) && Holding(s, q) <= s.occupied {
      FrameLocal(w, s, s', p, q);
      assert LocalOk(w, s, q);
    }
    forall n | n in s'.occupied ensures exists q :: n in Holding(s', q) {
      if n !in Holding(s', p) {
        var q :| n in Holding(s, q);
        assert n in Holding(s', q);
      }
    }
    forall q, r | q != r ensures Holding(s', q) !! Holding(s', r) {
      assert Holding(s, q) !! Holding(s, r);
      if q == p {
        assert Holding(s, r) <= s.occupied - Holding(s, p);
      } else if r == p {
        assert Holding(s, q) <= s.occupied - Holding(s, p);
      }
    }
  }

  // ---- Preservation, step by step ----

  /** A step that leaves the fights alone keeps them as long as it keeps who fights whom. */
  lemma FightsKept(w: World, s: State, s': State, p: Name)
    requires OwnFights(w, s, p) && s'.fights == s.fights && p in s.players && p in s'.players && Current(s', p) == Current(s, p)
    ensures OwnFights(w, s', p)
  {
    forall f | 0 <= f < |s'.fights| && s'.fights[f].player == p ensures FightOk(w, s', f) {
      assert FightOk(w, s, f);
    }
  }

  lemma Connects(w: World, s: State, s': State, p: Name)
    requires w.Ok() && LocalOk(w, s, p) && p !in s.players && Step(w, s, s', Connect(p))
    ensures GoodChange(w, s, s', p)
  {
    forall f | 0 <= f < |s'.fights| && s'.fights[f].player == p ensures FightOk(w, s', f) {
      assert FightOk(w, s, f);
    }
  }

  lemma Begins(w: World, s: State, p: Name, c: Command)
    requires LocalOk(w, s, p) && p in s.players && s.players[p].pc == Idle
    ensures GoodChange(w, s, Goto(s, p, BeginPC(c)), p)
  {
    FightsKept(w, s, Goto(s, p, BeginPC(c)), p);
  }

  lemma AttackLooks(w: World, s: State, p: Name)
    requires LocalOk(w, s, p) && p in s.players && (s.players[p].pc.AtkStatus? || s.players[p].pc.AtkLookup?)
    ensures GoodChange(w, s, RunAttack(w, s, p), p)
  {
    FightsKept(w, s, RunAttack(w, s, p), p);
  }

  lemma AttackOccupies(w: World, s: State, p: Name)
    requires LocalOk(w, s, p) && p in s.players && s.players[p].pc.AtkOccupy?
    ensures GoodChange(w, s, RunAttack(w, s, p), p)
  {
    FightsKept(w, s, RunAttack(w, s, p), p);
  }

  lemma AttackRegisters(w: World, s: State, p: Name)
    requires LocalOk(w, s, p) && p in s.players && s.players[p].pc.AtkRegister? && w.Ok()
    ensures GoodChange(w, s, RunAttack(w, s, p), p)
  {
    var s' := RunAttack(w, s, p);
    forall f | 0 <= f < |s'.fights| && s'.fights[f].player == p ensures FightOk(w, s', f) {
      if f < |s.fights| {
        assert FightOk(w, s, f);
      }
    }
  }

  /** Only the fight a player is taken up with can be live, so a step on it cannot hurt
      the player's other fights. */
  lemma OneFightChanged(w: World, s: State, s': State, p: Name, f: nat)
    requires OwnFights(w, s, p) && p in s.players && Current(s, p) == Some(f)
    requires f < |s.fights| == |s'.fights| && FightOk(w, s', f)
    requires forall g :: 0 <= g < |s.fights| && g != f ==> s'.fights[g] == s.fights[g]
    ensures OwnFights(w, s', p)
  {
    forall g | 0 <= g < |s'.fights| && s'.fights[g].player == p ensures FightOk(w, s', g) {
      if g != f {
        assert FightOk(w, s, g);
      }
    }
  }

  /** ... and leaves everybody else alone. */
  lemma OneFightTouches(s: State, s': State, p: Name, f: nat)
    requires f < |s.fights| == |s'.fights| && s.fights[f].player == p && s'.fights[f].player == p
    requires forall g :: 0 <= g < |s.fights| && g != f ==> s'.fights[g] == s.fights[g]
    requires s'.inZone == s.inZone && p in s'.players && s'.players == s.players[p := s'.players[p]]
    requires s'.ongoing == s.ongoing || s'.ongoing == s.ongoing - {p}
    ensures p in s.players ==> OnlyTouches(s, s', p)
  {
  }

  lemma AttackEngages(w: World, s: State, p: Name)
    requires LocalOk(w, s, p) && p in s.players && s.players[p].pc.AtkEngage? && PointsToFight(s, s.players[p].pc)
    ensures GoodChange(w, s, RunAttack(w, s, p), p)
  {
    FightsKept(w, s, RunAttack(w, s, p), p);
  }

  lemma AttackSpawns(w: World, s: State, p: Name)
    requires LocalOk(w, s, p) && p in s.players && s.players[p].pc.AtkSpawn? && PointsToFight(s, s.players[p].pc)
    ensures GoodChange(w, s, RunAttack(w, s, p), p)
  {
    OneFightChanged(w, s, RunAttack(w, s, p), p, s.players[p].pc.f);
  }

  lemma AttackReplies(w: World, s: State, p: Name)
    requires LocalOk(w, s, p) && p in s.players && s.players[p].pc.AtkReply? && w.Ok()
    ensures GoodChange(w, s, RunAttack(w, s, p), p)
  {
    FightsKept(w, s, RunAttack(w, s, p), p);
  }

  lemma MovePassesGate(w: World, s: State, p: Name)
    requires LocalOk(w, s, p) && p in s.players && w.Ok() && s.players[p].pc.MoveGate?
    ensures GoodChange(w, s, RunMove(w, s, p), p)
  {
    FightsKept(w, s, RunMove(w, s, p), p);
  }

  lemma MoveLeaves(w: World, s: State, p: Name)
    requires LocalOk(w, s, p) && p in s.players && w.Ok() && s.players[p].pc.ShiftOut?
    ensures GoodChange(w, s, RunMove(w, s, p), p)
  {
    FightsKept(w, s, RunMove(w, s, p), p);
  }

  lemma MoveTravels(w: World, s: State, p: Name)
    requires LocalOk(w, s, p) && p in s.players && w.Ok() && s.players[p].pc.ShiftLoc?
    ensures GoodChange(w, s, RunMove(w, s, p), p)
  {
    FightsKept(w, s, RunMove(w, s, p), p);
  }

  lemma MoveArrives(w: World, s: State, p: Name)
    requires LocalOk(w, s, p) && p in s.players && w.Ok() && s.players[p].pc.ShiftIn?
    ensures GoodChange(w, s, RunMove(w, s, p), p)
  {
    FightsKept(w, s, RunMove(w, s, p), p);
  }

  lemma Moves(w: World, s: State, p: Name)
    requires LocalOk(w, s, p) && p in s.players && InMove(s.players[p].pc) && w.Ok()
    ensures GoodChange(w, s, RunMove(w, s, p), p)
  {
    match s.players[p].pc {
      case MoveGate(_) => MovePassesGate(w, s, p);
      case ShiftOut(_) => MoveLeaves(w, s, p);
      case ShiftLoc(_) => MoveTravels(w, s, p);
      case ShiftIn(_) => MoveArrives(w, s, p);
    }
  }

  lemma EndLooksUp(w: World, s: State, p: Name)
    requires LocalOk(w, s, p) && p in s.players && (s.players[p].pc.FleeLookup? || s.players[p].pc.CleanLookup?)
    ensures GoodChange(w, s, RunEnd(s, p), p)
  {
    FightsKept(w, s, RunEnd(s, p), p);
  }

  lemma EndIsOver(w: World, s: State, p: Name)
    requires LocalOk(w, s, p) && p in s.players && (s.players[p].pc.FleeStatus? || s.players[p].pc.CleanZone?)
    ensures GoodChange(w, s, RunEnd(s, p), p)
  {
    FightsKept(w, s, RunEnd(s, p), p);
  }

  lemma EndDeletes(w: World, s: State, p: Name)
    requires LocalOk(w, s, p) && p in s.players && s.players[p].pc.EndDelete? && PointsToFight(s, s.players[p].pc)
    ensures GoodChange(w, s, RunEnd(s, p), p)
  {
    FightsKept(w, s, RunEnd(s, p), p);
  }

  lemma EndFrees(w: World, s: State, p: Name)
    requires LocalOk(w, s, p) && p in s.players && s.players[p].pc.EndFree? && PointsToFight(s, s.players[p].pc)
    ensures GoodChange(w, s, RunEnd(s, p), p)
  {
    FightsKept(w, s, RunEnd(s, p), p);
  }

  lemma EndCloses(w: World, s: State, p: Name)
    requires LocalOk(w, s, p) && p in s.players && s.players[p].pc.EndClose? && PointsToFight(s, s.players[p].pc)
    ensures GoodChange(w, s, RunEnd(s, p), p)
  {
    OneFightChanged(w, s, RunEnd(s, p), p, s.players[p].pc.f);
  }

  lemma CleanupEnds(w: World, s: State, p: Name)
    requires LocalOk(w, s, p) && p in s.players && s.players[p].pc.CleanOffline?
    ensures GoodChange(w, s, RunEnd(s, p), p)
  {
    var s' := RunEnd(s, p);
    forall f | 0 <= f < |s'.fights| && s'.fights[f].player == p ensures FightOk(w, s', f) {
      assert FightOk(w, s, f);
    }
  }

  /** A fight that is open during another command is with an enemy that outlasted a round. */
  lemma OpenFightOutlasts(w: World, s: State, p: Name)
    requires LocalOk(w, s, p) && p in s.players && InSync(ViewOf(s, p)) && p in s.ongoing
    ensures s.ongoing[p] < |s.fights|
    ensures var n := s.fights[s.ongoing[p]].npc; n in w.hostile && Outlasts(w.hostile[n]) && Present(w, s, p, n)
  {
    assert FightOk(w, s, s.ongoing[p]);
  }

  /** Only here does it matter where healers stand: a healer in reach of a player who is
      fighting would overwrite the engaged status. */
  lemma TalkFindsHealer(w: World, s: State, p: Name)
    requires LocalOk(w, s, p) && p in s.players && s.players[p].pc.TalkRead? && w.Apart()
    requires s.players[p].pc.npc in w.healers && Present(w, s, p, s.players[p].pc.npc)
    ensures p !in s.ongoing
  {
    if p in s.ongoing {
      OpenFightOutlasts(w, s, p);
    }
  }

  lemma TalkReads(w: World, s: State, p: Name)
    requires LocalOk(w, s, p) && p in s.players && s.players[p].pc.TalkRead? && w.Apart()
    ensures GoodChange(w, s, RunTalk(w, s, p), p)
  {
    var n := s.players[p].pc.npc;
    if n in w.healers && Present(w, s, p, n) {
      TalkFindsHealer(w, s, p);
    }
    FightsKept(w, s, RunTalk(w, s, p), p);
  }

  lemma TalkHeals(w: World, s: State, p: Name)
    requires LocalOk(w, s, p) && p in s.players && (s.players[p].pc.HealHP? || s.players[p].pc.HealStatus?)
    ensures GoodChange(w, s, RunTalk(w, s, p), p)
  {
    FightsKept(w, s, RunTalk(w, s, p), p);
  }

  lemma Talks(w: World, s: State, p: Name)
    requires LocalOk(w, s, p) && p in s.players && InTalk(s.players[p].pc) && w.Apart()
    ensures GoodChange(w, s, RunTalk(w, s, p), p)
  {
    if s.players[p].pc.TalkRead? {
      TalkReads(w, s, p);
    } else {
      TalkHeals(w, s, p);
    }
  }

  lemma Sends(w: World, s: State, s': State, p: Name)
    requires LocalOk(w, s, p) && Step(w, s, s', Send(p))
    ensures GoodChange(w, s, s', p)
  {
    var f := s.players[p].pc.f;
    SendsView(w, s, s', p);
    OneFightTouches(s, s', p, f);
    OneFightChanged(w, s, s', p, f);
  }

  lemma SendsView(w: World, s: State, s': State, p: Name)
    requires LocalOk(w, s, p) && Step(w, s, s', Send(p))
    ensures var f := s.players[p].pc.f; f < |s'.fights| && FightOk(w, s', f)
    ensures p in s'.players && ViewOk(w, p, ViewOf(s', p)) && Holding(s', p) == Holding(s, p)
  {
    assert FightOk(w, s, s.players[p].pc.f);
  }

  /** A closed fight is nobody's any more. */
  lemma FightStops(w: World, s: State, s': State, f: nat)
    requires Step(w, s, s', RunFight(f)) && s.fights[f].pc == Waiting && LocalOk(w, s, s.fights[f].player)
    ensures GoodChange(w, s, s', s.fights[f].player)
  {
    StoppedFights(w, s, s', f);
    assert OnlyTouches(s, s', s.fights[f].player);
  }

  lemma StoppedFights(w: World, s: State, s': State, f: nat)
    requires Step(w, s, s', RunFight(f)) && s.fights[f].pc == Waiting && LocalOk(w, s, s.fights[f].player)
    ensures FightOk(w, s, f) && OwnFights(w, s', s.fights[f].player)
  {
    assert FightOk(w, s, f);
    forall g | 0 <= g < |s'.fights| && s'.fights[g].player == s.fights[f].player ensures FightOk(w, s', g) {
      assert FightOk(w, s, g);
    }
  }

  lemma FightFrees(w: World, s: State, f: nat)
    requires f < |s.fights| && s.fights[f].player in s.players && LocalOk(w, s, s.fights[f].player)
    requires s.fights[f].pc.FreeNpc?
    ensures GoodChange(w, s, FightStep(s, f), s.fights[f].player)
  {
    assert FightOk(w, s, f);
    OneFightChanged(w, s, FightStep(s, f), s.fights[f].player, f);
  }

  lemma FightUnregisters(w: World, s: State, f: nat)
    requires f < |s.fights| && s.fights[f].player in s.players && LocalOk(w, s, s.fights[f].player)
    requires s.fights[f].pc.Unregister?
    ensures GoodChange(w, s, FightStep(s, f), s.fights[f].player)
  {
    assert FightOk(w, s, f);
    OneFightChanged(w, s, FightStep(s, f), s.fights[f].player, f);
  }

  lemma FightListens(w: World, s: State, f: nat)
    requires f < |s.fights| && s.fights[f].player in s.players && LocalOk(w, s, s.fights[f].player)
    requires s.fights[f].pc.Started? || s.fights[f].pc.FixStatus?
    ensures GoodChange(w, s, FightStep(s, f), s.fights[f].player)
  {
    var p, s' := s.fights[f].player, FightStep(s, f);
    assert FightOk(w, s, f);
    OneFightTouches(s, s', p, f);
    OneFightChanged(w, s, s', p, f);
    ListensView(w, s, f);
  }

  lemma ListensView(w: World, s: State, f: nat)
    requires f < |s.fights| && s.fights[f].player in s.players && LocalOk(w, s, s.fights[f].player)
    requires s.fights[f].pc.Started? || s.fights[f].pc.FixStatus?
    ensures var p, s' := s.fights[f].player, FightStep(s, f);
      p in s'.players && ViewOk(w, p, ViewOf(s', p)) && Holding(s', p) == Holding(s, p)
  {
    assert FightOk(w, s, f);
  }

  lemma FightMends(w: World, s: State, f: nat)
    requires f < |s.fights| && s.fights[f].player in s.players && LocalOk(w, s, s.fights[f].player)
    requires s.fights[f].pc.FixHP?
    ensures GoodChange(w, s, FightStep(s, f), s.fights[f].player)
  {
    assert FightOk(w, s, f);
    OneFightChanged(w, s, FightStep(s, f), s.fights[f].player, f);
  }

  lemma FightRuns(w: World, s: State, s': State, f: nat)
    requires Step(w, s, s', RunFight(f)) && s.fights[f].pc != Waiting && LocalOk(w, s, s.fights[f].player)
    ensures GoodChange(w, s, s', s.fights[f].player)
  {
    var pc := s.fights[f].pc;
    if pc.FreeNpc? {
      FightFrees(w, s, f);
    } else if pc.Unregister? {
      FightUnregisters(w, s, f);
    } else if pc.FixHP? {
      FightMends(w, s, f);
    } else if pc.Started? || pc.FixStatus? {
      FightListens(w, s, f);
    }
  }

  lemma Rolled(w: World, s: State, s': State, f: nat, fighter: Fighter, r: Rolls)
    requires w.Ok() && Step(w, s, s', Roll(f, fighter, r)) && LocalOk(w, s, s.fights[f].player)
    ensures GoodChange(w, s, s', s.fights[f].player)
  {
    var p := s.fights[f].player;
    assert FightOk(w, s, f);
    OneFightTouches(s, s', p, f);
    RolledFight(w, s, s', f, fighter, r);
    OneFightChanged(w, s, s', p, f);
    RolledView(w, s, s', f, fighter, r);
  }

  lemma RolledFight(w: World, s: State, s': State, f: nat, fighter: Fighter, r: Rolls)
    requires w.Ok() && Step(w, s, s', Roll(f, fighter, r)) && LocalOk(w, s, s.fights[f].player)
    ensures FightOk(w, s', f)
  {
    assert FightOk(w, s, f);
    RoundIsFair(fighter, w.hostile[s.fights[f].npc].stats, s.players[s.fights[f].player].hp, s.fights[f].hp, r);
  }

  lemma RolledView(w: World, s: State, s': State, f: nat, fighter: Fighter, r: Rolls)
    requires w.Ok() && Step(w, s, s', Roll(f, fighter, r)) && LocalOk(w, s, s.fights[f].player)
    ensures var p := s.fights[f].player;
      p in s.players && p in s'.players && ViewOk(w, p, ViewOf(s', p)) && Holding(s', p) == Holding(s, p)
  {
    assert FightOk(w, s, f);
    RoundIsFair(fighter, w.hostile[s.fights[f].npc].stats, s.players[s.fights[f].player].hp, s.fights[f].hp, r);
  }

  lemma Answers(w: World, s: State, s': State, f: nat)
    requires Step(w, s, s', Answer(f)) && LocalOk(w, s, s.fights[f].player)
    ensures GoodChange(w, s, s', s.fights[f].player)
  {
    var p := s.fights[f].player;
    assert FightOk(w, s, f);
    OneFightTouches(s, s', p, f);
    AnswersFight(w, s, s', f);
    OneFightChanged(w, s, s', p, f);
    AnswersView(w, s, s', f);
  }

  lemma AnswersFight(w: World, s: State, s': State, f: nat)
    requires Step(w, s, s', Answer(f)) && LocalOk(w, s, s.fights[f].player)
    ensures f < |s'.fights| && FightOk(w, s', f)
  {
    assert FightOk(w, s, f);
  }

  lemma AnswersView(w: World, s: State, s': State, f: nat)
    requires Step(w, s, s', Answer(f)) && LocalOk(w, s, s.fights[f].player)
    ensures var p := s.fights[f].player;
      p in s'.players && ViewOk(w, p, ViewOf(s', p)) && Holding(s', p) == Holding(s, p)
  {
    assert FightOk(w, s, f);
  }

  // ---- Every step ----

  /** Whose goroutines an action belongs to. */
  function Mover(s: State, a: Act): Name {
    match a
    case Connect(p) => p
    case Begin(p, _) => p
    case Run(p) => p
    case Send(p) => p
    case RunFight(f) => if f < |s.fights| then s.fights[f].player else ""
    case Roll(f, _, _) => if f < |s.fights| then s.fights[f].player else ""
    case Answer(f) => if f < |s.fights| then s.fights[f].player else ""
  }

  lemma AttackRuns(w: World, s: State, p: Name)
    requires w.Ok() && LocalOk(w, s, p) && p in s.players && InAttack(s.players[p].pc) && PointsToFight(s, s.players[p].pc)
    ensures GoodChange(w, s, RunAttack(w, s, p), p)
  {
    var pc := s.players[p].pc;
    if pc.AtkRegister? {
      AttackRegisters(w, s, p);
    } else if pc.AtkEngage? {
      AttackEngages(w, s, p);
    } else if pc.AtkSpawn? {
      AttackSpawns(w, s, p);
    } else if pc.AtkReply? {
      AttackReplies(w, s, p);
    } else if pc.AtkOccupy? {
      AttackOccupies(w, s, p);
    } else {
      AttackLooks(w, s, p);
    }
  }

  lemma EndRuns(w: World, s: State, p: Name)
    requires LocalOk(w, s, p) && p in s.players && InEnd(s.players[p].pc) && PointsToFight(s, s.players[p].pc)
    ensures GoodChange(w, s, RunEnd(s, p), p)
  {
    var pc := s.players[p].pc;
    if pc.EndDelete? {
      EndDeletes(w, s, p);
    } else if pc.EndFree? {
      EndFrees(w, s, p);
    } else if pc.EndClose? {
      EndCloses(w, s, p);
    } else if pc.FleeLookup? || pc.CleanLookup? {
      EndLooksUp(w, s, p);
    } else if pc.CleanOffline? {
      CleanupEnds(w, s, p);
    } else {
      EndIsOver(w, s, p);
    }
  }

  lemma RunUnfolds(w: World, s: State, s': State, p: Name)
    requires Step(w, s, s', Run(p))
    ensures p in s.players && PointsToFight(s, s.players[p].pc)
    ensures var pc := s.players[p].pc;
      && (InAttack(pc) ==> s' == RunAttack(w, s, p)) && (InMove(pc) ==> s' == RunMove(w, s, p))
      && (InEnd(pc) ==> s' == RunEnd(s, p)) && (InTalk(pc) ==> s' == RunTalk(w, s, p))
      && (InAttack(pc) || InMove(pc) || InEnd(pc) || InTalk(pc))
  {
  }

  lemma ConnectionRuns(w: World, s: State, s': State, p: Name)
    requires w.Ok() && w.Apart() && LocalOk(w, s, p) && Step(w, s, s', Run(p))
    ensures GoodChange(w, s, s', p)
  {
    RunUnfolds(w, s, s', p);
    GoesOut(w, s, p);
    GoesOn(w, s, p);
  }

  /** What the connection of a player does next, in a command that fights or moves ... */
  lemma GoesOut(w: World, s: State, p: Name)
    requires w.Ok() && LocalOk(w, s, p) && p in s.players && PointsToFight(s, s.players[p].pc)
    ensures InAttack(s.players[p].pc) ==> GoodChange(w, s, RunAttack(w, s, p), p)
    ensures InMove(s.players[p].pc) ==> GoodChange(w, s, RunMove(w, s, p), p)
  {
    if InAttack(s.players[p].pc) {
      AttackRuns(w, s, p);
    } else if InMove(s.players[p].pc) {
      Moves(w, s, p);
    }
  }

  /** ... and in one that ends a fight or talks. */
  lemma GoesOn(w: World, s: State, p: Name)
    requires w.Apart() && LocalOk(w, s, p) && p in s.players && PointsToFight(s, s.players[p].pc)
    ensures InEnd(s.players[p].pc) ==> GoodChange(w, s, RunEnd(s, p), p)
    ensures InTalk(s.players[p].pc) ==> GoodChange(w, s, RunTalk(w, s, p), p)
  {
    if InEnd(s.players[p].pc) {
      EndRuns(w, s, p);
    } else if InTalk(s.players[p].pc) {
      Talks(w, s, p);
    }
  }
}
