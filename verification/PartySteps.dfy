/** Every lock step of the group commands keeps the invariant, one kind of step at a time. */
module PartySteps {
  import opened Wrappers
  import opened PartyLocks

  lemma Awaited(s: State, t: Pid, k: Lock)
    requires CanGo(s, t) && Awaits(s, t, k)
    ensures forall u :: u in s.pcs ==> !Holds(u, s.pcs[u], k)
  {
    forall u | u in s.pcs ensures !Holds(u, s.pcs[u], k) {
      assert !WaitsFor(s, t, u);
    }
  }

  /** The locks stay exclusive when a command only adds the ones it awaited. */
  lemma ExclusiveKept(s: State, s': State, t: Pid)
    requires Exclusive(s) && CanGo(s, t) && t in s'.pcs && s'.pcs == s.pcs[t := s'.pcs[t]]
    requires forall k :: Holds(t, s'.pcs[t], k) ==> Holds(t, s.pcs[t], k) || Awaits(s, t, k)
    ensures Exclusive(s')
  {
    forall u, k | u in s.pcs && u != t && Holds(u, s.pcs[u], k) && Holds(t, s'.pcs[t], k) ensures false {
      if Awaits(s, t, k) {
        Awaited(s, t, k);
      }
    }
  }

  lemma OthersDoNotHold(s: State, t: Pid, k: Lock)
    requires Exclusive(s) && t in s.pcs && Holds(t, s.pcs[t], k)
    ensures forall u :: u in s.pcs && u != t ==> !Holds(u, s.pcs[u], k)
  {
  }

  /** What another command knows, in a state where this one moved. */
  ghost predicate Watches(s: State, s': State, strays: set<Pid>, t: Pid, u: Pid) {
    t != u && t in s.pcs && u in s.pcs && s'.pcs.Keys == s.pcs.Keys && s.info.Keys == s.pcs.Keys
    && s'.info.Keys == s.info.Keys && s'.pcs[u] == s.pcs[u] && Local(s, u, strays)
  }

  ghost predicate Changes(s: State, s': State, t: Pid) {
    Domains(s) && t in s.pcs && t in s'.pcs && s'.pcs == s.pcs[t := s'.pcs[t]]
  }

  // Creating.

  ghost predicate Creates(s: State, s': State, t: Pid) {
    && Changes(s, s', t) && s.pcs[t] == CreateSelf && s.info[t].None? && s'.pcs[t] == CreateRegister(|s.groups|)
    && s'.info == s.info[t := Some(|s.groups|)] && s'.groups == s.groups + [Group(t, {t})] && s'.registry == s.registry
  }

  lemma CreateMembers(s: State, s': State, t: Pid)
    requires Creates(s, s', t) && MembersIn(s)
    ensures Domains(s') && MembersIn(s') && t !in s.registry
  {
    forall l | l in s.registry ensures s.info[l] == Some(s.registry[l]) {
      assert Registered(s, s.registry[l]) && Listed(s, s.registry[l]);
    }
    forall g: Gid | Registered(s', g) ensures Listed(s', g) {
      assert g == s.registry[s'.groups[g].leader];
      assert Registered(s, g) && Listed(s, g) && s'.groups[g] == s.groups[g];
    }
  }

  lemma CreateBelongs(s: State, s': State, strays: set<Pid>, t: Pid)
    requires Creates(s, s', t) && Belongs(s, strays)
    ensures Belongs(s', strays)
  {
    forall p | p in s'.info && s'.info[p].Some? ensures Placed(s', strays, p, s'.info[p].value) {
      if p != t {
        assert Placed(s, strays, p, s.info[p].value);
        assert Registered(s, s.info[p].value) ==> Registered(s', s.info[p].value);
      }
    }
  }

  lemma CreateWatched(s: State, s': State, strays: set<Pid>, t: Pid, u: Pid)
    requires Creates(s, s', t) && Watches(s, s', strays, t, u)
    ensures Local(s', u, strays)
  {
  }

  lemma CreateKeeps(s: State, s': State, strays: set<Pid>, t: Pid)
    requires Creates(s, s', t) && MembersIn(s) && Belongs(s, strays) && Locals(s, strays)
    ensures Domains(s') && MembersIn(s') && Belongs(s', strays) && Locals(s', strays)
  {
    CreateMembers(s, s', t);
    CreateBelongs(s, s', strays, t);
    forall u | u in s'.pcs ensures Local(s', u, strays) {
      if u != t {
        CreateWatched(s, s', strays, t, u);
      }
    }
  }

  // Registering.

  ghost predicate Registers(s: State, s': State, strays: set<Pid>, t: Pid, g: Gid) {
    && Changes(s, s', t) && s.pcs[t] == CreateRegister(g) && Local(s, t, strays) && s'.pcs[t] == Idle
    && s'.info == s.info && s'.groups == s.groups && s'.registry == s.registry[t := g]
  }

  lemma RegisterMembers(s: State, s': State, strays: set<Pid>, t: Pid, g: Gid)
    requires Registers(s, s', strays, t, g) && MembersIn(s)
    ensures Domains(s') && MembersIn(s')
  {
    forall h: Gid | Registered(s', h) ensures Listed(s', h) {
      assert h == g || (Registered(s, h) && Listed(s, h));
    }
  }

  lemma RegisterBelongs(s: State, s': State, strays: set<Pid>, t: Pid, g: Gid)
    requires Registers(s, s', strays, t, g) && Belongs(s, strays)
    ensures Belongs(s', strays)
  {
    forall p | p in s'.info && s'.info[p].Some? ensures Placed(s', strays, p, s'.info[p].value) {
      assert Placed(s, strays, p, s.info[p].value);
      assert Registered(s, s.info[p].value) ==> Registered(s', s.info[p].value);
    }
  }

  lemma RegisterWatched(s: State, s': State, strays: set<Pid>, t: Pid, g: Gid, u: Pid)
    requires Registers(s, s', strays, t, g) && Watches(s, s', strays, t, u)
    ensures Local(s', u, strays)
  {
  }

  lemma RegisterKeeps(s: State, s': State, strays: set<Pid>, t: Pid, g: Gid)
    requires Registers(s, s', strays, t, g) && MembersIn(s) && Belongs(s, strays) && Locals(s, strays)
    ensures Domains(s') && MembersIn(s') && Belongs(s', strays) && Locals(s', strays)
  {
    RegisterMembers(s, s', strays, t, g);
    RegisterBelongs(s, s', strays, t, g);
    forall u | u in s'.pcs ensures Local(s', u, strays) {
      if u != t {
        RegisterWatched(s, s', strays, t, g, u);
      }
    }
  }

  // Joining.

  ghost predicate Joins(s: State, s': State, strays: set<Pid>, t: Pid, g: Gid) {
    && Changes(s, s', t) && s.pcs[t] == JoinSelf(g) && Local(s, t, strays) && s.info[t].None?
    && (Registered(s, g) || (t in strays && s.groups[g].leader != t))
    && s'.info == s.info[t := Some(g)] && s'.registry == s.registry
    && s'.groups == s.groups[g := Group(s.groups[g].leader, s.groups[g].members + {t})]
    && (s'.pcs[t] == Idle || (s'.pcs[t].Telling? && s'.pcs[t].g == g && {s'.pcs[t].m} + s'.pcs[t].rest <= s.groups[g].members - {t}))
  }

  lemma JoinMembers(s: State, s': State, strays: set<Pid>, t: Pid, g: Gid)
    requires Joins(s, s', strays, t, g) && MembersIn(s)
    ensures Domains(s') && MembersIn(s')
  {
    forall h: Gid | Registered(s', h) ensures Listed(s', h) {
      assert Registered(s, h) && Listed(s, h);
    }
  }

  lemma JoinBelongs(s: State, s': State, strays: set<Pid>, t: Pid, g: Gid)
    requires Joins(s, s', strays, t, g) && Belongs(s, strays)
    ensures Belongs(s', strays)
  {
    assert Registered(s, g) ==> Registered(s', g);
    forall p | p in s'.info && s'.info[p].Some? ensures Placed(s', strays, p, s'.info[p].value) {
      if p != t {
        assert Placed(s, strays, p, s.info[p].value);
        assert Registered(s, s.info[p].value) ==> Registered(s', s.info[p].value);
      }
    }
  }

  lemma JoinWatched(s: State, s': State, strays: set<Pid>, t: Pid, g: Gid, u: Pid)
    requires Joins(s, s', strays, t, g) && Watches(s, s', strays, t, u) && !Holds(u, s.pcs[u], GroupMu(g))
    ensures Local(s', u, strays)
  {
  }

  lemma JoinKeeps(s: State, s': State, strays: set<Pid>, t: Pid, g: Gid)
    requires Joins(s, s', strays, t, g) && MembersIn(s) && Belongs(s, strays) && Locals(s, strays) && Exclusive(s)
    ensures Domains(s') && MembersIn(s') && Belongs(s', strays) && Locals(s', strays)
  {
    JoinMembers(s, s', strays, t, g);
    JoinBelongs(s, s', strays, t, g);
    OthersDoNotHold(s, t, GroupMu(g));
    forall u | u in s'.pcs ensures Local(s', u, strays) {
      if u != t {
        JoinWatched(s, s', strays, t, g, u);
      }
    }
  }

  // Leaving.

  ghost predicate Leaves(s: State, s': State, strays: set<Pid>, t: Pid, g: Gid) {
    && Changes(s, s', t) && s.pcs[t] == LeaveSelf(g) && Local(s, t, strays) && s.info[t] == Some(g)
    && (Registered(s, g) || t in strays)
    && s'.info == s.info[t := None] && s'.registry == s.registry
    && s'.groups == s.groups[g := Group(s.groups[g].leader, s.groups[g].members - {t})]
    && (s'.pcs[t] == Idle || (s'.pcs[t].Telling? && s'.pcs[t].g == g && {s'.pcs[t].m} + s'.pcs[t].rest <= s.groups[g].members - {t}))
  }

  /** Who leaves under the lock leaves a registered group, strays apart. */
  lemma LeavesRegistered(s: State, strays: set<Pid>, t: Pid, g: Gid)
    requires Inv(s, strays) && t in s.pcs && s.pcs[t] == LeaveSelf(g) && s.info[t] == Some(g)
    ensures Registered(s, g) || t in strays
  {
    assert Placed(s, strays, t, g) && Local(s, t, strays);
    OthersDoNotHold(s, t, GroupMu(g));
  }

  lemma LeaveMembers(s: State, s': State, strays: set<Pid>, t: Pid, g: Gid)
    requires Leaves(s, s', strays, t, g) && MembersIn(s)
    ensures Domains(s') && MembersIn(s')
  {
    forall h: Gid | Registered(s', h) ensures Listed(s', h) {
      assert Registered(s, h) && Listed(s, h);
    }
  }

  lemma LeaveBelongs(s: State, s': State, strays: set<Pid>, t: Pid, g: Gid)
    requires Leaves(s, s', strays, t, g) && Belongs(s, strays)
    ensures Belongs(s', strays)
  {
    forall p | p in s'.info && s'.info[p].Some? ensures Placed(s', strays, p, s'.info[p].value) {
      assert Placed(s, strays, p, s.info[p].value);
      assert Registered(s, s.info[p].value) ==> Registered(s', s.info[p].value);
    }
  }

  lemma LeaveWatched(s: State, s': State, strays: set<Pid>, t: Pid, g: Gid, u: Pid)
    requires Leaves(s, s', strays, t, g) && Watches(s, s', strays, t, u) && !Holds(u, s.pcs[u], GroupMu(g))
    ensures Local(s', u, strays)
  {
  }

  lemma LeaveKeeps(s: State, s': State, strays: set<Pid>, t: Pid, g: Gid)
    requires Leaves(s, s', strays, t, g) && MembersIn(s) && Belongs(s, strays) && Locals(s, strays) && Exclusive(s)
    ensures Domains(s') && MembersIn(s') && Belongs(s', strays) && Locals(s', strays)
  {
    LeaveMembers(s, s', strays, t, g);
    LeaveBelongs(s, s', strays, t, g);
    OthersDoNotHold(s, t, GroupMu(g));
    forall u | u in s'.pcs ensures Local(s', u, strays) {
      if u != t {
        LeaveWatched(s, s', strays, t, g, u);
      }
    }
  }

  // Disbanding: first the registry, then one member after the other.

  ghost predicate Strikes(s: State, s': State, strays: set<Pid>, t: Pid, g: Gid) {
    && Changes(s, s', t) && s.pcs[t] == DisbandRegister(g) && Local(s, t, strays)
    && s'.info == s.info && s'.groups == s.groups && s'.registry == s.registry - {t}
    && s'.pcs[t].Disbanding? && s'.pcs[t].g == g && {s'.pcs[t].m} + s'.pcs[t].rest == s.groups[g].members
    && s'.pcs[t].m !in s'.pcs[t].rest
  }

  lemma StrikeMembers(s: State, s': State, strays: set<Pid>, t: Pid, g: Gid)
    requires Strikes(s, s', strays, t, g) && MembersIn(s)
    ensures Domains(s') && MembersIn(s') && Local(s', t, strays)
  {
    forall h: Gid | Registered(s', h) ensures Listed(s', h) {
      assert Registered(s, h) && Listed(s, h);
    }
    var pc := s'.pcs[t];
    assert Registered(s, g) && Listed(s, g);
    forall k | k == pc.m || k in pc.rest ensures k in s.info && s.info[k] == Some(g) {
      assert k in {pc.m} + pc.rest;
    }
  }

  lemma StrikeBelongs(s: State, s': State, strays: set<Pid>, t: Pid, g: Gid)
    requires Strikes(s, s', strays, t, g) && Belongs(s, strays)
    ensures Belongs(s', strays)
  {
    var pc := s'.pcs[t];
    assert forall k :: k in s.groups[g].members ==> k in {pc.m} + pc.rest;
    forall p | p in s'.info && s'.info[p].Some? ensures Placed(s', strays, p, s'.info[p].value) {
      var h := s.info[p].value;
      assert Placed(s, strays, p, h);
      if s.groups[h].leader != t {
        assert Registered(s, h) ==> Registered(s', h);
      } else if InGroup(s, p, h) {
        assert h == g;
      }
    }
  }

  lemma StrikeWatched(s: State, s': State, strays: set<Pid>, t: Pid, g: Gid, u: Pid)
    requires Strikes(s, s', strays, t, g) && Watches(s, s', strays, t, u) && !Holds(u, s.pcs[u], GroupMu(g))
    ensures Local(s', u, strays)
  {
  }

  lemma StrikeKeeps(s: State, s': State, strays: set<Pid>, t: Pid, g: Gid)
    requires Strikes(s, s', strays, t, g) && MembersIn(s) && Belongs(s, strays) && Locals(s, strays) && Exclusive(s)
    ensures Domains(s') && MembersIn(s') && Belongs(s', strays) && Locals(s', strays)
  {
    StrikeMembers(s, s', strays, t, g);
    StrikeBelongs(s, s', strays, t, g);
    OthersDoNotHold(s, t, GroupMu(g));
    forall u | u in s'.pcs ensures Local(s', u, strays) {
      if u != t {
        StrikeWatched(s, s', strays, t, g, u);
      }
    }
  }

  ghost predicate Visits(s: State, s': State, strays: set<Pid>, t: Pid, g: Gid, m: Pid, rest: set<Pid>) {
    && Changes(s, s', t) && s.pcs[t] == Disbanding(g, m, rest) && Local(s, t, strays)
    && s'.info == s.info[m := None] && s'.groups == s.groups && s'.registry == s.registry
    && (rest == {} ==> s'.pcs[t] == Idle)
    && (rest != {} ==> s'.pcs[t].Disbanding? && s'.pcs[t].g == g && {s'.pcs[t].m} + s'.pcs[t].rest == rest
                       && s'.pcs[t].m !in s'.pcs[t].rest)
  }

  lemma VisitMembers(s: State, s': State, strays: set<Pid>, t: Pid, g: Gid, m: Pid, rest: set<Pid>)
    requires Visits(s, s', strays, t, g, m, rest) && MembersIn(s)
    ensures Domains(s') && MembersIn(s')
  {
    forall h: Gid | Registered(s', h) ensures Listed(s', h) {
      assert h != g && Registered(s, h) && Listed(s, h);
    }
  }

  lemma VisitSelf(s: State, s': State, strays: set<Pid>, t: Pid, g: Gid, m: Pid, rest: set<Pid>)
    requires Visits(s, s', strays, t, g, m, rest) && Domains(s)
    ensures s'.info.Keys == s'.pcs.Keys && Local(s', t, strays)
  {
    if rest != {} {
      var pc := s'.pcs[t];
      forall k | k == pc.m || k in pc.rest ensures k in s'.info && s'.info[k] == Some(g) {
        assert k in {pc.m} + pc.rest;
      }
    }
  }

  lemma VisitBelongs(s: State, s': State, strays: set<Pid>, t: Pid, g: Gid, m: Pid, rest: set<Pid>)
    requires Visits(s, s', strays, t, g, m, rest) && Belongs(s, strays)
    ensures Belongs(s', strays)
  {
    forall p | p in s'.info && s'.info[p].Some? ensures Placed(s', strays, p, s'.info[p].value) {
      var h := s.info[p].value;
      assert p != m && Placed(s, strays, p, h);
      assert Registered(s, h) ==> Registered(s', h);
      if s.groups[h].leader == t && YetToVisit(s.pcs[t], h, p) {
        assert p in {s'.pcs[t].m} + s'.pcs[t].rest;
      }
    }
  }

  lemma VisitWatched(s: State, s': State, strays: set<Pid>, t: Pid, g: Gid, m: Pid, rest: set<Pid>, u: Pid)
    requires Visits(s, s', strays, t, g, m, rest) && Watches(s, s', strays, t, u)
    ensures Local(s', u, strays)
  {
  }

  lemma VisitKeeps(s: State, s': State, strays: set<Pid>, t: Pid, g: Gid, m: Pid, rest: set<Pid>)
    requires Visits(s, s', strays, t, g, m, rest) && MembersIn(s) && Belongs(s, strays) && Locals(s, strays)
    ensures Domains(s') && MembersIn(s') && Belongs(s', strays) && Locals(s', strays)
  {
    VisitMembers(s, s', strays, t, g, m, rest);
    VisitBelongs(s, s', strays, t, g, m, rest);
    forall u | u in s'.pcs ensures Local(s', u, strays) {
      if u != t {
        VisitWatched(s, s', strays, t, g, m, rest, u);
      } else {
        VisitSelf(s, s', strays, t, g, m, rest);
      }
    }
  }

  // Steps that change nothing but where the command stands.

  ghost predicate Shifts(s: State, s': State, t: Pid) {
    && t in s.pcs && t in s.info && t in s'.pcs && s' == At(s, t, s'.pcs[t])
    && !s.pcs[t].CreateRegister? && !s.pcs[t].Disbanding? && !s'.pcs[t].CreateRegister?
  }

  lemma ShiftMembers(s: State, s': State, t: Pid)
    requires Shifts(s, s', t) && Domains(s) && MembersIn(s)
    ensures Domains(s') && MembersIn(s')
  {
    assert s'.groups == s.groups && s'.registry == s.registry && s'.info == s.info;
    forall h: Gid | Registered(s', h) ensures Listed(s', h) {
      assert Registered(s, h) && Listed(s, h);
    }
  }

  lemma ShiftBelongs(s: State, s': State, strays: set<Pid>, t: Pid)
    requires Shifts(s, s', t) && Belongs(s, strays)
    ensures Belongs(s', strays)
  {
    forall p | p in s'.info && s'.info[p].Some? ensures Placed(s', strays, p, s'.info[p].value) {
      assert Placed(s, strays, p, s.info[p].value);
      assert Registered(s, s.info[p].value) ==> Registered(s', s.info[p].value);
    }
  }

  lemma ShiftWatched(s: State, s': State, strays: set<Pid>, t: Pid, u: Pid)
    requires Shifts(s, s', t) && Watches(s, s', strays, t, u)
    ensures Local(s', u, strays)
  {
  }

  lemma ShiftKeeps(s: State, s': State, strays: set<Pid>, t: Pid)
    requires Shifts(s, s', t) && Domains(s) && MembersIn(s) && Belongs(s, strays) && Locals(s, strays) && Local(s', t, strays)
    ensures Domains(s') && MembersIn(s') && Belongs(s', strays) && Locals(s', strays)
  {
    ShiftMembers(s, s', t);
    ShiftBelongs(s, s', strays, t);
    forall u | u in s'.pcs ensures Local(s', u, strays) {
      if u != t {
        ShiftWatched(s, s', strays, t, u);
      }
    }
  }

  // ---- Together ----

  /** A free player about to enter a group that is no longer registered: the code does not ask. */
  ghost predicate StraysNow(s: State, t: Pid)
    requires t in s.pcs && t in s.info
  {
    s.pcs[t].JoinSelf? && s.info[t].None? && !Registered(s, s.pcs[t].g)
  }

  ghost predicate Ready(s: State, strays: set<Pid>, t: Pid, pick: Pid) {
    Inv(s, strays) && CanGo(s, t) && PickOk(Todo(s, t), pick)
  }

  lemma GoneExclusive(s: State, strays: set<Pid>, t: Pid, pick: Pid)
    requires Ready(s, strays, t, pick)
    ensures Exclusive(Gone(s, t, pick))
  {
    ExclusiveKept(s, Gone(s, t, pick), t);
  }

  lemma GoneCreate(s: State, strays: set<Pid>, t: Pid, pick: Pid)
    requires Ready(s, strays, t, pick) && s.pcs[t].CreateSelf? && s.info[t].None?
    ensures Inv(Gone(s, t, pick), strays)
  {
    GoneExclusive(s, strays, t, pick);
    CreateKeeps(s, Gone(s, t, pick), strays, t);
  }

  lemma GoneRegister(s: State, strays: set<Pid>, t: Pid, pick: Pid)
    requires Ready(s, strays, t, pick) && s.pcs[t].CreateRegister?
    ensures Inv(Gone(s, t, pick), strays)
  {
    GoneExclusive(s, strays, t, pick);
    assert Local(s, t, strays);
    RegisterKeeps(s, Gone(s, t, pick), strays, t, s.pcs[t].g);
  }

  /** A free player leads no registered group. */
  lemma FreeLeadsNone(s: State, t: Pid, g: Gid)
    requires MembersIn(s) && t in s.info && s.info[t].None? && Registered(s, g)
    ensures s.groups[g].leader != t
  {
    assert Listed(s, g);
  }

  lemma GoneJoin(s: State, strays: set<Pid>, t: Pid, pick: Pid)
    requires Ready(s, strays, t, pick) && s.pcs[t].JoinSelf? && s.info[t].None? && (StraysNow(s, t) ==> t in strays)
    ensures Inv(Gone(s, t, pick), strays)
  {
    GoneExclusive(s, strays, t, pick);
    assert Local(s, t, strays);
    if Registered(s, s.pcs[t].g) {
      FreeLeadsNone(s, t, s.pcs[t].g);
    }
    JoinKeeps(s, Gone(s, t, pick), strays, t, s.pcs[t].g);
  }

  lemma GoneLeave(s: State, strays: set<Pid>, t: Pid, pick: Pid)
    requires Ready(s, strays, t, pick) && s.pcs[t].LeaveSelf? && s.info[t] == Some(s.pcs[t].g)
    ensures Inv(Gone(s, t, pick), strays)
  {
    GoneExclusive(s, strays, t, pick);
    assert Local(s, t, strays);
    LeavesRegistered(s, strays, t, s.pcs[t].g);
    LeaveKeeps(s, Gone(s, t, pick), strays, t, s.pcs[t].g);
  }

  lemma GoneStrike(s: State, strays: set<Pid>, t: Pid, pick: Pid)
    requires Ready(s, strays, t, pick) && s.pcs[t].DisbandRegister?
    ensures Inv(Gone(s, t, pick), strays)
  {
    GoneExclusive(s, strays, t, pick);
    assert Local(s, t, strays);
    assert Registered(s, s.pcs[t].g);
    StrikeKeeps(s, Gone(s, t, pick), strays, t, s.pcs[t].g);
  }

  lemma GoneVisit(s: State, strays: set<Pid>, t: Pid, pick: Pid)
    requires Ready(s, strays, t, pick) && s.pcs[t].Disbanding?
    ensures Inv(Gone(s, t, pick), strays)
  {
    GoneExclusive(s, strays, t, pick);
    assert Local(s, t, strays);
    VisitKeeps(s, Gone(s, t, pick), strays, t, s.pcs[t].g, s.pcs[t].m, s.pcs[t].rest);
  }

  predicate Changing(s: State, t: Pid)
    requires t in s.pcs && t in s.info
  {
    match s.pcs[t]
    case CreateSelf => s.info[t].None?
    case CreateRegister(_) => true
    case JoinSelf(_) => s.info[t].None?
    case LeaveSelf(g) => s.info[t] == Some(g)
    case DisbandRegister(_) => true
    case Disbanding(_, _, _) => true
    case _ => false
  }

  lemma GoneShift(s: State, strays: set<Pid>, t: Pid, pick: Pid)
    requires Ready(s, strays, t, pick) && !Changing(s, t)
    ensures Inv(Gone(s, t, pick), strays)
  {
    GoneExclusive(s, strays, t, pick);
    ShiftsLocally(s, strays, t, pick);
    ShiftKeeps(s, Gone(s, t, pick), strays, t);
  }

  lemma ShiftsLocally(s: State, strays: set<Pid>, t: Pid, pick: Pid)
    requires Domains(s) && t in s.pcs && Local(s, t, strays) && PickOk(Todo(s, t), pick) && !Changing(s, t)
    requires Locals(s, strays)
    ensures Shifts(s, Gone(s, t, pick), t) && Local(Gone(s, t, pick), t, strays)
  {
  }

  lemma GoKeeps(s: State, strays: set<Pid>, t: Pid, pick: Pid)
    requires Ready(s, strays, t, pick) && (StraysNow(s, t) ==> t in strays)
    ensures Inv(Gone(s, t, pick), strays)
  {
    if !Changing(s, t) {
      GoneShift(s, strays, t, pick);
    } else {
      match s.pcs[t] {
        case CreateSelf => GoneCreate(s, strays, t, pick);
        case CreateRegister(_) => GoneRegister(s, strays, t, pick);
        case JoinSelf(_) => GoneJoin(s, strays, t, pick);
        case LeaveSelf(_) => GoneLeave(s, strays, t, pick);
        case DisbandRegister(_) => GoneStrike(s, strays, t, pick);
        case Disbanding(_, _, _) => GoneVisit(s, strays, t, pick);
        case _ =>
      }
    }
  }

  lemma StartsLocally(s: State, strays: set<Pid>, t: Pid, mv: Move)
    requires Domains(s) && Belongs(s, strays) && Locals(s, strays) && t in s.pcs && s.pcs[t] == Idle && !mv.Go?
    requires mv.StartInvite? ==> mv.invitee in s.pcs
    ensures Local(At(s, t, Started(s, t, mv)), t, strays)
  {
    assert s.info[t].Some? ==> Placed(s, strays, t, s.info[t].value);
  }

  lemma StartExclusive(s: State, t: Pid, mv: Move)
    requires Exclusive(s) && t in s.pcs && t in s.info
    ensures Exclusive(At(s, t, Started(s, t, mv)))
  {
    assert forall k :: !Holds(t, Started(s, t, mv), k);
  }

  lemma StartKeeps(s: State, strays: set<Pid>, t: Pid, mv: Move)
    requires Inv(s, strays) && t in s.pcs && s.pcs[t] == Idle && !mv.Go?
    requires mv.StartInvite? ==> mv.invitee in s.pcs
    ensures Inv(At(s, t, Started(s, t, mv)), strays)
  {
    StartsLocally(s, strays, t, mv);
    StartExclusive(s, t, mv);
    ShiftKeeps(s, At(s, t, Started(s, t, mv)), strays, t);
  }

  lemma MoreStrays(s: State, strays: set<Pid>, more: set<Pid>)
    requires Inv(s, strays) && strays <= more
    ensures Inv(s, more)
  {
    forall p | p in s.info && s.info[p].Some? ensures Placed(s, more, p, s.info[p].value) {
      assert Placed(s, strays, p, s.info[p].value);
    }
    forall t | t in s.pcs ensures Local(s, t, more) {
      assert Local(s, t, strays);
    }
  }
}
