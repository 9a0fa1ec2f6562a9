/** The locks of the group commands, one acquisition at a time: when nobody waits in a circle.
    Every player runs its own commands; a critical section that locks nothing further is one step. */
module PartyLocks {
  import opened Wrappers

  type Pid = nat
  type Gid = nat

  datatype Lock = PlayerMu(p: Pid) | PartiesMu | GroupMu(g: Gid)

  datatype Group = Group(leader: Pid, members: set<Pid>)

  /** Where a player's command is: always at a lock it is about to take, unless Idle. */
  datatype PC =
    | Idle
    | CreateSelf
    | CreateRegister(g: Gid)
    | InviteGroup(g: Gid, invitee: Pid)
    | InviteAsk(g: Gid, invitee: Pid)
    | JoinFind(leader: Pid)
    | JoinGroup(g: Gid)
    | JoinSelf(g: Gid)
    | LeaveGroup(g: Gid)
    | LeaveSelf(g: Gid)
    | Telling(g: Gid, m: Pid, rest: set<Pid>)
    | DisbandGroup(g: Gid)
    | DisbandRegister(g: Gid)
    | Disbanding(g: Gid, m: Pid, rest: set<Pid>)

  /** Groups are objects, numbered as they are made; a disbanded one stays, members and all. */
  datatype State = State(info: map<Pid, Option<Gid>>, groups: seq<Group>, registry: map<Pid, Gid>, pcs: map<Pid, PC>)

  // ---- Who holds what, and who waits for what ----

  predicate Holds(t: Pid, pc: PC, k: Lock) {
    match pc
    case CreateRegister(_) => k == PlayerMu(t)
    case InviteAsk(g, _) => k == GroupMu(g)
    case JoinSelf(g) => k == GroupMu(g)
    case LeaveSelf(g) => k == GroupMu(g)
    case Telling(g, _, _) => k == GroupMu(g) || k == PlayerMu(t)
    case DisbandRegister(g) => k == GroupMu(g)
    case Disbanding(g, _, _) => k == GroupMu(g) || k == PartiesMu
    case _ => false
  }

  predicate Awaits(s: State, t: Pid, k: Lock)
    requires t in s.pcs
  {
    match s.pcs[t]
    case Idle => false
    case CreateSelf => k == PlayerMu(t)
    case CreateRegister(_) => k == PartiesMu
    case InviteGroup(g, _) => k == GroupMu(g)
    case InviteAsk(_, q) => k == PlayerMu(q)
    case JoinFind(l) => k == PartiesMu || (l in s.registry && k == GroupMu(s.registry[l]))
    case JoinGroup(g) => k == GroupMu(g)
    case JoinSelf(_) => k == PlayerMu(t)
    case LeaveGroup(g) => k == GroupMu(g)
    case LeaveSelf(_) => k == PlayerMu(t)
    case Telling(_, m, _) => k == PlayerMu(m)
    case DisbandGroup(g) => k == GroupMu(g)
    case DisbandRegister(_) => k == PartiesMu
    case Disbanding(_, m, _) => k == PlayerMu(m)
  }

  ghost predicate WaitsFor(s: State, t: Pid, u: Pid) {
    t in s.pcs && u in s.pcs && exists k :: Awaits(s, t, k) && Holds(u, s.pcs[u], k)
  }

  /** A command can go on when nobody, itself included, holds what it awaits. */
  ghost predicate CanGo(s: State, t: Pid) {
    t in s.pcs && s.pcs[t] != Idle && forall u :: !WaitsFor(s, t, u)
  }

  // ---- The steps ----

  datatype Move = StartCreate | StartInvite(invitee: Pid) | StartJoin(leader: Pid) | StartLeave | Lookup(leader: Pid) | Go(pick: Pid)

  function Tell(g: Gid, todo: set<Pid>, pick: Pid): PC {
    if pick in todo then Telling(g, pick, todo - {pick}) else Idle
  }

  function Dismiss(g: Gid, todo: set<Pid>, pick: Pid): PC {
    if pick in todo then Disbanding(g, pick, todo - {pick}) else Idle
  }

  function Members(s: State, g: Gid): set<Pid> {
    if g < |s.groups| then s.groups[g].members else {}
  }

  ghost predicate Registered(s: State, g: Gid) {
    g < |s.groups| && s.groups[g].leader in s.registry && s.registry[s.groups[g].leader] == g
  }

  /** Where the loop over members goes next is free; it stops only when none is left. */
  predicate PickOk(todo: set<Pid>, pick: Pid) {
    todo != {} ==> pick in todo
  }

  /** The members a going command still has to visit, after its current lock. */
  function Todo(s: State, t: Pid): set<Pid>
    requires t in s.pcs && t in s.info
  {
    match s.pcs[t]
    case JoinSelf(g) => if s.info[t].Some? then {} else Members(s, g) - {t}
    case LeaveSelf(g) => if s.info[t] != Some(g) then {} else Members(s, g) - {t}
    case Telling(_, _, rest) => rest
    case DisbandRegister(g) => Members(s, g)
    case Disbanding(_, _, rest) => rest
    case _ => {}
  }

  function At(s: State, t: Pid, pc: PC): State {
    s.(pcs := s.pcs[t := pc])
  }

  function WithMembers(s: State, g: Gid, members: set<Pid>): State {
    if g < |s.groups| then s.(groups := s.groups[g := s.groups[g].(members := members)]) else s
  }

  /** What a command does once it gets the lock it awaits, up to the next lock. */
  function Gone(s: State, t: Pid, pick: Pid): State
    requires t in s.pcs && t in s.info
  {
    match s.pcs[t]
    case Idle => s
    case CreateSelf =>
      if s.info[t].Some? then At(s, t, Idle)
      else At(s.(info := s.info[t := Some(|s.groups|)], groups := s.groups + [Group(t, {t})]), t, CreateRegister(|s.groups|))
    case CreateRegister(g) => At(s.(registry := s.registry[t := g]), t, Idle)
    case InviteGroup(g, q) => At(s, t, if g < |s.groups| && s.groups[g].leader == t then InviteAsk(g, q) else Idle)
    case InviteAsk(_, _) => At(s, t, Idle)
    case JoinFind(l) => At(s, t, if l in s.registry then JoinSelf(s.registry[l]) else Idle)
    case JoinGroup(g) => At(s, t, JoinSelf(g))
    case JoinSelf(g) =>
      if s.info[t].Some? then At(s, t, Idle)
      else At(WithMembers(s.(info := s.info[t := Some(g)]), g, Members(s, g) + {t}), t, Tell(g, Todo(s, t), pick))
    case LeaveGroup(g) => At(s, t, LeaveSelf(g))
    case LeaveSelf(g) =>
      if s.info[t] != Some(g) then At(s, t, Idle)
      else At(WithMembers(s.(info := s.info[t := None]), g, Members(s, g) - {t}), t, Tell(g, Todo(s, t), pick))
    case Telling(g, _, rest) => At(s, t, Tell(g, rest, pick))
    case DisbandGroup(g) => At(s, t, DisbandRegister(g))
    case DisbandRegister(g) => At(s.(registry := s.registry - {t}), t, Dismiss(g, Members(s, g), pick))
    case Disbanding(g, m, rest) => At(s.(info := s.info[m := None]), t, Dismiss(g, rest, pick))
  }

  /** What starting a command does: GROUP INVITE and GROUP LEAVE first read the player's group. */
  function Started(s: State, t: Pid, mv: Move): PC
    requires t in s.pcs && t in s.info
  {
    match mv
    case StartCreate => CreateSelf
    case StartInvite(q) => if s.info[t].None? || q == t then Idle else InviteGroup(s.info[t].value, q)
    case StartJoin(l) => JoinFind(l)
    case StartLeave =>
      if s.info[t].None? then Idle
      else
        var g := s.info[t].value;
        if g < |s.groups| && s.groups[g].leader == t then DisbandGroup(g) else LeaveGroup(g)
    case Lookup(l) => if l in s.registry then JoinGroup(s.registry[l]) else Idle
    case Go(_) => Idle
  }

  /** One step. With split, a join may find its group and lock it in two steps, as the code has
      it; without, in one. */
  ghost predicate Step(s: State, s': State, t: Pid, mv: Move, split: bool) {
    && t in s.pcs && t in s.info
    && (mv.Go? ==> CanGo(s, t) && PickOk(Todo(s, t), mv.pick) && s' == Gone(s, t, mv.pick))
    && (!mv.Go? ==> s.pcs[t] == Idle && s' == At(s, t, Started(s, t, mv)))
    && (mv.StartInvite? ==> mv.invitee in s.pcs)
    && (mv.StartJoin? ==> !split)
    && (mv.Lookup? ==> split && forall u :: u in s.pcs ==> !Holds(u, s.pcs[u], PartiesMu))
  }

  // ---- What stays true ----

  ghost predicate Domains(s: State) {
    && s.info.Keys == s.pcs.Keys
    && (forall l :: l in s.registry ==> l in s.pcs && s.registry[l] < |s.groups| && s.groups[s.registry[l]].leader == l)
    && (forall p :: p in s.info && s.info[p].Some? ==> s.info[p].value < |s.groups|)
  }

  /** No lock has two holders. */
  ghost predicate Exclusive(s: State) {
    forall t, u, k :: t in s.pcs && u in s.pcs && Holds(t, s.pcs[t], k) && Holds(u, s.pcs[u], k) ==> t == u
  }

  /** The members of a registered group are in it, and its leader is one of them. */
  ghost predicate MembersIn(s: State) {
    forall g: Gid :: Registered(s, g) ==> Listed(s, g)
  }

  ghost predicate Listed(s: State, g: Gid)
    requires g < |s.groups|
  {
    s.groups[g].leader in s.groups[g].members && forall m :: m in s.groups[g].members ==> m in s.info && s.info[m] == Some(g)
  }

  /** Every player with a group is in it, except that a stray, one that has entered a disbanded
      group, may be in a disbanded group of somebody else. */
  ghost predicate Belongs(s: State, strays: set<Pid>) {
    forall p :: p in s.info && s.info[p].Some? ==> Placed(s, strays, p, s.info[p].value)
  }

  ghost predicate Placed(s: State, strays: set<Pid>, p: Pid, g: Gid) {
    InGroup(s, p, g) || (p in strays && g < |s.groups| && s.groups[g].leader != p)
  }

  /** A player's group is registered, or is being created by it, or is being disbanded and has
      yet to visit it. */
  ghost predicate InGroup(s: State, p: Pid, g: Gid) {
    && g < |s.groups| && p in s.groups[g].members && s.groups[g].leader in s.pcs
    && (|| Registered(s, g)
        || (s.groups[g].leader == p && s.pcs[p] == CreateRegister(g))
        || YetToVisit(s.pcs[s.groups[g].leader], g, p))
  }

  ghost predicate YetToVisit(pc: PC, g: Gid, p: Pid) {
    pc.Disbanding? && pc.g == g && (p == pc.m || p in pc.rest)
  }

  /** A group somebody looked up: its creation is over, and only its leader can disband it. */
  ghost predicate Found(s: State, t: Pid, g: Gid) {
    && g < |s.groups| && s.groups[g].leader in s.pcs && s.pcs[s.groups[g].leader] != CreateRegister(g)
    && (s.groups[g].leader == t ==> Registered(s, g))
  }

  /** What a command knows where it stands. */
  ghost predicate Local(s: State, t: Pid, strays: set<Pid>)
    requires t in s.pcs && t in s.info
  {
    match s.pcs[t]
    case Idle => true
    case CreateSelf => true
    case CreateRegister(g) => s.info[t] == Some(g) && g < |s.groups| && s.groups[g] == Group(t, {t}) && t !in s.registry
    case InviteGroup(g, q) => g < |s.groups| && q in s.pcs
    case InviteAsk(g, q) => g < |s.groups| && q in s.pcs
    case JoinFind(_) => true
    case JoinGroup(g) => Found(s, t, g)
    case JoinSelf(g) => Found(s, t, g)
    case LeaveGroup(g) => g < |s.groups| && s.groups[g].leader != t
    case LeaveSelf(g) => g < |s.groups| && s.groups[g].leader != t
    case Telling(g, m, rest) =>
      && g < |s.groups| && (Registered(s, g) || t in strays)
      && m in s.groups[g].members && t != m && rest <= s.groups[g].members - {t} && (s.info[t] == None || s.info[t] == Some(g))
    case DisbandGroup(g) => Registered(s, g) && s.groups[g].leader == t
    case DisbandRegister(g) => Registered(s, g) && s.groups[g].leader == t
    case Disbanding(g, m, rest) =>
      && g < |s.groups| && s.groups[g].leader == t && t !in s.registry && m !in rest
      && forall k :: k == m || k in rest ==> k in s.info && s.info[k] == Some(g)
  }

  ghost predicate Locals(s: State, strays: set<Pid>)
    requires s.info.Keys == s.pcs.Keys
  {
    forall t :: t in s.pcs ==> Local(s, t, strays)
  }

  ghost predicate Inv(s: State, strays: set<Pid>) {
    Domains(s) && Exclusive(s) && MembersIn(s) && Belongs(s, strays) && Locals(s, strays)
  }

  // ---- Who can wait for whom ----

  /** The members a disband has yet to visit never hold their own lock, nor do those that a
      join or leave of a registered group tells. */
  lemma VisitedHoldNothing(s: State, strays: set<Pid>, t: Pid, m: Pid)
    requires Inv(s, strays) && t in s.pcs && m in s.pcs
    requires (s.pcs[t].Telling? && m == s.pcs[t].m && Registered(s, s.pcs[t].g)) || (s.pcs[t].Disbanding? && m == s.pcs[t].m)
    ensures !Holds(m, s.pcs[m], PlayerMu(m))
  {
    var g := s.pcs[t].g;
    assert Local(s, t, strays) && Local(s, m, strays);
    assert s.info[m] == Some(g);
    if s.pcs[m].Telling? && s.pcs[m].g == g {
      assert Holds(m, s.pcs[m], GroupMu(g)) && Holds(t, s.pcs[t], GroupMu(g));
    }
  }

  /** How many others a command may have to wait for, at most, one behind the other. */
  function Rank(t: Pid, pc: PC, strays: set<Pid>): nat {
    match pc
    case CreateRegister(_) => 1
    case DisbandRegister(_) => 1
    case Telling(_, _, _) => if t in strays then 2 else 0
    case InviteAsk(_, _) => 3
    case InviteGroup(_, _) => 4
    case JoinFind(_) => 4
    case JoinGroup(_) => 4
    case LeaveGroup(_) => 4
    case DisbandGroup(_) => 4
    case _ => 0
  }

  ghost predicate AtMostOne(strays: set<Pid>) {
    forall p, q :: p in strays && q in strays ==> p == q
  }

  /** With one stray at most, whoever is waited for has a lower rank. */
  lemma RankFalls(s: State, strays: set<Pid>, t: Pid, u: Pid)
    requires Inv(s, strays) && AtMostOne(strays) && WaitsFor(s, t, u)
    ensures Rank(u, s.pcs[u], strays) < Rank(t, s.pcs[t], strays)
  {
    assert Local(s, t, strays) && Local(s, u, strays);
    var k :| Awaits(s, t, k) && Holds(u, s.pcs[u], k);
    if s.pcs[t].Disbanding? || (s.pcs[t].Telling? && t !in strays) {
      VisitedHoldNothing(s, strays, t, s.pcs[t].m);
    }
  }

  /** Then some command can always go on. */
  lemma {:induction false} SomeoneCanGo(s: State, strays: set<Pid>, t: Pid) returns (u: Pid)
    requires Inv(s, strays) && AtMostOne(strays) && t in s.pcs && s.pcs[t] != Idle
    ensures CanGo(s, u)
    decreases Rank(t, s.pcs[t], strays)
  {
    if CanGo(s, t) {
      u := t;
    } else {
      var v :| WaitsFor(s, t, v);
      RankFalls(s, strays, t, v);
      u := SomeoneCanGo(s, strays, v);
    }
  }

  // ---- Chains of waits ----

  /** Nobody waits for itself. */
  lemma WaitsForAnother(s: State, strays: set<Pid>, t: Pid, u: Pid)
    requires Inv(s, strays) && WaitsFor(s, t, u)
    ensures t != u
  {
    assert Local(s, t, strays);
  }

  /** Who waits while being waited for does not wait for a group: so whoever it waits for holds
      its own lock or the registry's. */
  lemma HeldForAnother(s: State, v: Pid, w: Pid, x: Pid)
    requires WaitsFor(s, v, w) && WaitsFor(s, w, x)
    ensures s.pcs[x].CreateRegister? || s.pcs[x].Telling? || s.pcs[x].Disbanding?
  {
    var j :| Awaits(s, v, j) && Holds(w, s.pcs[w], j);
    var k :| Awaits(s, w, k) && Holds(x, s.pcs[x], k);
    assert !k.GroupMu?;
  }

  /** A disband that has struck the group off the registry waits for nobody who is waiting. */
  lemma DisbandWaitsLast(s: State, strays: set<Pid>, x: Pid, y: Pid)
    requires Inv(s, strays) && x in s.pcs && s.pcs[x].Disbanding?
    ensures !WaitsFor(s, x, y)
  {
    if WaitsFor(s, x, y) {
      VisitedHoldNothing(s, strays, x, y);
    }
  }

  lemma RegistrarWaitsForDisband(s: State, x: Pid, y: Pid)
    requires WaitsFor(s, x, y) && s.pcs[x].CreateRegister?
    ensures s.pcs[y].Disbanding?
  {
    var k :| Awaits(s, x, k) && Holds(y, s.pcs[y], k);
    assert k == PartiesMu;
  }

  ghost predicate TellsDisbanded(s: State, t: Pid) {
    t in s.pcs && s.pcs[t].Telling? && !Registered(s, s.pcs[t].g)
  }

  /** A join or leave that has to wait while it tells the members is a stray's, in a disbanded
      group. */
  lemma TellerIsAstray(s: State, strays: set<Pid>, x: Pid, y: Pid)
    requires Inv(s, strays) && WaitsFor(s, x, y) && s.pcs[x].Telling?
    ensures TellsDisbanded(s, x) && x in strays
  {
    assert Local(s, x, strays);
    if Registered(s, s.pcs[x].g) {
      VisitedHoldNothing(s, strays, x, y);
    }
  }

  /** In the middle of a chain of four waits stands a stray, telling the members of a
      disbanded group. */
  lemma MiddleIsAstray(s: State, strays: set<Pid>, v: Pid, w: Pid, x: Pid, y: Pid, z: Pid)
    requires Inv(s, strays) && WaitsFor(s, v, w) && WaitsFor(s, w, x) && WaitsFor(s, x, y) && WaitsFor(s, y, z)
    ensures TellsDisbanded(s, x) && x in strays
  {
    HeldForAnother(s, v, w, x);
    if s.pcs[x].CreateRegister? {
      RegistrarWaitsForDisband(s, x, y);
      DisbandWaitsLast(s, strays, y, z);
    } else if s.pcs[x].Disbanding? {
      DisbandWaitsLast(s, strays, x, y);
    } else {
      TellerIsAstray(s, strays, x, y);
    }
  }
}
