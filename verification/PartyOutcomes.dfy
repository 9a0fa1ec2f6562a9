/** What a whole group command comes to, from its start to its end, whatever lock steps the
    others make in between: in every run. */
module PartyOutcomes {
  import opened Wrappers
  import opened PartyLocks
  import opened PartySteps
  import opened PartyRuns

  /** From state a to state b the player runs the command that this move starts, and no other. */
  ghost predicate Runs(run: seq<State>, split: bool, a: nat, b: nat, p: Pid, mv: Move) {
    Under(run, split, a, b, p, mv) && p in run[b].pcs && run[b].pcs[p] == Idle
  }

  ghost predicate Under(run: seq<State>, split: bool, a: nat, b: nat, p: Pid, mv: Move) {
    && Run(run, split) && a < b < |run| && !mv.Go? && Step(run[a], run[a + 1], p, mv, split)
    && forall k :: a < k < b ==> Busy(run[k], p)
  }

  ghost predicate Busy(s: State, p: Pid) {
    p in s.pcs && p in s.info && s.pcs[p] != Idle
  }

  // ---- What one step may change ----

  /** A step changes nobody's group but its own player's, and in a disband the member visited. */
  lemma WhoseGroup(s: State, t: Pid, pick: Pid, q: Pid)
    requires t in s.pcs && t in s.info && q in s.info && q != t
    ensures var s' := Gone(s, t, pick);
      q in s'.info && (s'.info[q] != s.info[q] ==> s.pcs[t].Disbanding? && s.pcs[t].m == q && s'.info[q] == None)
  {
  }

  /** To p the others do no more than take its group away, and that not while it holds the
      group; nor do they touch its membership or its entry in the registry. */
  ghost predicate LeftBy(s: State, s': State, p: Pid) {
    && p in s.pcs && p in s'.pcs && s'.pcs[p] == s.pcs[p] && p in s.info && p in s'.info
    && (s'.info[p] == s.info[p] || s'.info[p] == None)
    && (s.info[p].Some? && Holds(p, s.pcs[p], GroupMu(s.info[p].value)) ==> s'.info[p] == s.info[p])
    && (p in s'.registry <==> p in s.registry) && (p in s.registry ==> s'.registry[p] == s.registry[p])
    && |s.groups| <= |s'.groups|
    && forall g :: 0 <= g < |s.groups| ==>
         s'.groups[g].leader == s.groups[g].leader && (p in s'.groups[g].members <==> p in s.groups[g].members)
  }

  lemma OthersRegistry(s: State, t: Pid, pick: Pid, p: Pid)
    requires t in s.pcs && t in s.info && p != t
    ensures var s' := Gone(s, t, pick);
      && (p in s'.registry <==> p in s.registry) && (p in s.registry ==> s'.registry[p] == s.registry[p])
  {
  }

  lemma OthersGroups(s: State, t: Pid, pick: Pid, p: Pid)
    requires t in s.pcs && t in s.info && p != t
    ensures var s' := Gone(s, t, pick);
      && |s.groups| <= |s'.groups|
      && forall g :: 0 <= g < |s.groups| ==>
           s'.groups[g].leader == s.groups[g].leader && (p in s'.groups[g].members <==> p in s.groups[g].members)
  {
  }

  lemma HolderKeepsGroup(s: State, strays: set<Pid>, t: Pid, pick: Pid, p: Pid)
    requires Inv(s, strays) && CanGo(s, t) && t != p && p in s.info && p in s.pcs
    requires s.info[p].Some? && Holds(p, s.pcs[p], GroupMu(s.info[p].value))
    ensures var s' := Gone(s, t, pick); p in s'.info && s'.info[p] == s.info[p]
  {
    WhoseGroup(s, t, pick, p);
    assert Local(s, t, strays);
    OthersDoNotHold(s, p, GroupMu(s.info[p].value));
  }

  lemma OthersLeave(s: State, strays: set<Pid>, s': State, t: Pid, mv: Move, split: bool, p: Pid)
    requires Inv(s, strays) && Step(s, s', t, mv, split) && p != t && p in s.pcs && p in s.info
    ensures LeftBy(s, s', p)
  {
    if mv.Go? {
      GoneMovesOne(s, t, mv.pick);
      WhoseGroup(s, t, mv.pick, p);
      OthersRegistry(s, t, mv.pick, p);
      OthersGroups(s, t, mv.pick, p);
      if s.info[p].Some? && Holds(p, s.pcs[p], GroupMu(s.info[p].value)) {
        HolderKeepsGroup(s, strays, t, mv.pick, p);
      }
    }
  }

  lemma OwnOrLeft(run: seq<State>, split: bool, k: nat, p: Pid) returns (pick: Pid)
    requires Run(run, split) && k + 1 < |run| && Busy(run[k], p)
    ensures LeftBy(run[k], run[k + 1], p) || Goes(run[k], run[k + 1], p, pick)
  {
    assert StepsAt(run, k, split);
    var t, mv :| Step(run[k], run[k + 1], t, mv, split);
    pick := if mv.Go? then mv.pick else 0;
    if t != p {
      RunKeeps(run, split, k);
      OthersLeave(run[k], Strayed(run, k), run[k + 1], t, mv, split, p);
    }
  }

  ghost predicate Goes(s: State, s': State, p: Pid, pick: Pid) {
    p in s.pcs && p in s.info && CanGo(s, p) && PickOk(Todo(s, p), pick) && s' == Gone(s, p, pick)
  }

  // ---- Creating ----

  ghost predicate CreateOn(s: State, t: State, p: Pid) {
    p in s.info && p in t.pcs && p in t.info && |s.groups| <= |t.groups| &&
    match t.pcs[p]
    case CreateSelf => t.info[p] == s.info[p] || t.info[p] == None
    case CreateRegister(g) => |s.groups| <= g
    case Idle =>
      t.info[p].Some? && (t.info[p] == s.info[p] || (|s.groups| <= t.info[p].value && Leads(t, p, t.info[p].value)))
    case _ => false
  }

  /** The player's group is registered under it. */
  ghost predicate Leads(t: State, p: Pid, g: Gid) {
    Registered(t, g) && t.groups[g].leader == p && p in t.groups[g].members
  }

  lemma CreateOwn(s: State, t: State, p: Pid, pick: Pid, strays: set<Pid>)
    requires CreateOn(s, t, p) && t.pcs[p] != Idle && Local(t, p, strays)
    ensures CreateOn(s, Gone(t, p, pick), p)
  {
  }

  lemma {:induction false} CreateAlong(run: seq<State>, split: bool, a: nat, k: nat, p: Pid)
    requires Under(run, split, a, k, p, StartCreate)
    ensures CreateOn(run[a], run[k], p)
    decreases k
  {
    if k > a + 1 {
      CreateAlong(run, split, a, k - 1, p);
      var pick := OwnOrLeft(run, split, k - 1, p);
      RunKeeps(run, split, k - 1);
      assert Local(run[k - 1], p, Strayed(run, k - 1));
      if Goes(run[k - 1], run[k], p, pick) {
        CreateOwn(run[a], run[k - 1], p, pick, Strayed(run, k - 1));
      }
    }
  }

  /** GROUP CREATE: the player leads a new registered group, or had one and still has. */
  lemma CreateFounds(run: seq<State>, split: bool, a: nat, b: nat, p: Pid)
    requires Runs(run, split, a, b, p, StartCreate)
    ensures var s, t := run[a], run[b];
      && p in s.info && p in t.info && t.info[p].Some?
      && (|| (s.info[p].Some? && t.info[p] == s.info[p])
          || (|s.groups| <= t.info[p].value && Leads(t, p, t.info[p].value)))
  {
    CreateAlong(run, split, a, b, p);
  }

  // ---- Joining ----

  ghost predicate JoinOn(s: State, t: State, p: Pid, g: Gid) {
    p in s.info && p in t.pcs && p in t.info &&
    match t.pcs[p]
    case JoinGroup(h) => h == g && g < |t.groups| && (t.info[p] == s.info[p] || t.info[p] == None)
    case JoinSelf(h) => h == g && g < |t.groups| && (t.info[p] == s.info[p] || t.info[p] == None)
    case Telling(h, _, _) => h == g && IsIn(t, p, g)
    case Idle => (s.info[p].Some? && t.info[p] == s.info[p]) || IsIn(t, p, g)
    case _ => false
  }

  /** The group is the player's, and lists it. */
  ghost predicate IsIn(t: State, p: Pid, g: Gid) {
    p in t.info && t.info[p] == Some(g) && g < |t.groups| && p in t.groups[g].members
  }

  lemma JoinOwn(s: State, t: State, p: Pid, pick: Pid, g: Gid)
    requires JoinOn(s, t, p, g) && t.pcs[p] != Idle
    ensures JoinOn(s, Gone(t, p, pick), p, g)
  {
  }

  lemma {:induction false} JoinAlong(run: seq<State>, a: nat, k: nat, p: Pid, l: Pid)
    requires Under(run, true, a, k, p, Lookup(l)) && l in run[a].registry
    ensures JoinOn(run[a], run[k], p, run[a].registry[l])
    decreases k
  {
    if k == a + 1 {
      RunKeeps(run, true, a);
    } else {
      JoinAlong(run, a, k - 1, p, l);
      var pick := OwnOrLeft(run, true, k - 1, p);
      if Goes(run[k - 1], run[k], p, pick) {
        JoinOwn(run[a], run[k - 1], p, pick, run[a].registry[l]);
      }
    }
  }

  /** GROUP JOIN of a registered group, found and locked in two steps: the player ends up in the
      group it found, or had one and still has; and nothing changes if there is no such group. */
  lemma JoinEnters(run: seq<State>, a: nat, b: nat, p: Pid, l: Pid)
    requires Runs(run, true, a, b, p, Lookup(l))
    ensures p in run[a].info && p in run[b].info
    ensures if l in run[a].registry
            then IsIn(run[b], p, run[a].registry[l]) || (run[a].info[p].Some? && run[b].info[p] == run[a].info[p])
            else b == a + 1 && run[b] == run[a]
  {
    if l in run[a].registry {
      JoinAlong(run, a, b, p, l);
    } else {
      assert run[a + 1].pcs == run[a].pcs;
    }
  }

  ghost predicate FindOn(s: State, t: State, p: Pid, l: Pid) {
    p in s.info && p in t.pcs && p in t.info &&
    match t.pcs[p]
    case JoinFind(m) => m == l && (t.info[p] == s.info[p] || t.info[p] == None)
    case JoinSelf(h) => IsLedBy(t, h, l) && (t.info[p] == s.info[p] || t.info[p] == None)
    case Telling(h, _, _) => IsLedBy(t, h, l) && IsIn(t, p, h)
    case Idle => (s.info[p].Some? && t.info[p] == s.info[p]) || EntersLedBy(t, p, l)
    case _ => false
  }

  ghost predicate IsLedBy(t: State, g: Gid, l: Pid) {
    g < |t.groups| && t.groups[g].leader == l
  }

  ghost predicate EntersLedBy(t: State, p: Pid, l: Pid) {
    p in t.info && t.info[p].Some? && IsLedBy(t, t.info[p].value, l) && IsIn(t, p, t.info[p].value)
  }

  lemma FindOwn(s: State, t: State, p: Pid, pick: Pid, l: Pid)
    requires FindOn(s, t, p, l) && t.pcs[p] != Idle && Domains(t)
    ensures FindOn(s, Gone(t, p, pick), p, l) || (t.pcs[p] == JoinFind(l) && l !in t.registry && Gone(t, p, pick).pcs[p] == Idle)
  {
  }

  lemma {:induction false} FindAlong(run: seq<State>, a: nat, k: nat, p: Pid, l: Pid)
    requires Under(run, false, a, k, p, StartJoin(l)) && p in run[k].pcs
    ensures FindOn(run[a], run[k], p, l) || (l !in run[k - 1].registry && run[k].pcs[p] == Idle)
    decreases k
  {
    if k > a + 1 {
      FindAlong(run, a, k - 1, p, l);
      var pick := OwnOrLeft(run, false, k - 1, p);
      RunKeeps(run, false, k - 1);
      if Goes(run[k - 1], run[k], p, pick) {
        FindOwn(run[a], run[k - 1], p, pick, l);
      }
    }
  }

  /** The same with lookup and lock in one step. */
  lemma JoinAtOnceEnters(run: seq<State>, a: nat, b: nat, p: Pid, l: Pid)
    requires Runs(run, false, a, b, p, StartJoin(l))
    ensures p in run[a].info && p in run[b].info
    ensures EntersLedBy(run[b], p, l) || (run[a].info[p].Some? && run[b].info[p] == run[a].info[p]) || l !in run[b - 1].registry
  {
    FindAlong(run, a, b, p, l);
    RunKeeps(run, false, b);
  }

  // ---- Inviting ----

  ghost predicate InviteOn(s: State, t: State, p: Pid, g: Gid, q: Pid) {
    p in t.pcs && p in t.info && g < |s.groups| <= |t.groups| && t.groups[g].leader == s.groups[g].leader &&
    match t.pcs[p]
    case InviteGroup(h, r) => h == g && r == q
    case InviteAsk(h, r) => h == g && r == q && s.groups[g].leader == p
    case Idle => true
    case _ => false
  }

  lemma InviteOwn(s: State, t: State, p: Pid, pick: Pid, g: Gid, q: Pid)
    requires InviteOn(s, t, p, g, q) && t.pcs[p] != Idle
    ensures InviteOn(s, Gone(t, p, pick), p, g, q) && Gone(t, p, pick) == At(t, p, Gone(t, p, pick).pcs[p])
    ensures t.pcs[p].InviteGroup? && s.groups[g].leader == p ==> Gone(t, p, pick).pcs[p] == InviteAsk(g, q)
  {
  }

  lemma {:induction false} InviteAlong(run: seq<State>, split: bool, a: nat, k: nat, p: Pid, g: Gid, q: Pid)
    requires Under(run, split, a, k, p, StartInvite(q)) && run[a].info[p] == Some(g) && q != p
    ensures InviteOn(run[a], run[k], p, g, q)
    decreases k
  {
    if k == a + 1 {
      RunKeeps(run, split, a);
    } else {
      InviteAlong(run, split, a, k - 1, p, g, q);
      var pick := OwnOrLeft(run, split, k - 1, p);
      if Goes(run[k - 1], run[k], p, pick) {
        InviteOwn(run[a], run[k - 1], p, pick, g, q);
      }
    }
  }

  /** GROUP INVITE: the invitee is asked, under the lock of the group, if and only if the player
      leads its group. */
  lemma InviteAsks(run: seq<State>, split: bool, a: nat, b: nat, p: Pid, q: Pid)
    requires Runs(run, split, a, b, p, StartInvite(q))
    ensures p in run[a].info
    ensures var g := run[a].info[p];
      (exists j :: a < j < b && p in run[j].pcs && g.Some? && run[j].pcs[p] == InviteAsk(g.value, q)) <==>
      g.Some? && g.value < |run[a].groups| && run[a].groups[g.value].leader == p && q != p
  {
    if run[a].info[p].Some? && q != p {
      var g := run[a].info[p].value;
      InviteAlong(run, split, a, b, p, g, q);
      forall j | a < j < b ensures InviteOn(run[a], run[j], p, g, q) {
        InviteAlong(run, split, a, j, p, g, q);
      }
      if run[a].groups[g].leader == p {
        var j := AskIsReached(run, split, a, a + 1, b, p, g, q);
      }
    }
  }

  lemma {:induction false} AskIsReached(run: seq<State>, split: bool, a: nat, k: nat, b: nat, p: Pid, g: Gid, q: Pid) returns (j: nat)
    requires Runs(run, split, a, b, p, StartInvite(q)) && run[a].info[p] == Some(g) && q != p && a < k < b
    requires g < |run[a].groups| && run[a].groups[g].leader == p && run[k].pcs[p] == InviteGroup(g, q)
    ensures k < j < b && p in run[j].pcs && run[j].pcs[p] == InviteAsk(g, q)
    decreases b - k
  {
    InviteAlong(run, split, a, k, p, g, q);
    var pick := OwnOrLeft(run, split, k, p);
    if Goes(run[k], run[k + 1], p, pick) {
      InviteOwn(run[a], run[k], p, pick, g, q);
      j := k + 1;
    } else {
      j := AskIsReached(run, split, a, k + 1, b, p, g, q);
    }
  }

  // ---- Leaving ----

  ghost predicate LeaveOn(s: State, t: State, p: Pid, g: Gid) {
    p in t.pcs && p in t.info && g < |s.groups| <= |t.groups| && t.groups[g].leader == s.groups[g].leader &&
    match t.pcs[p]
    case LeaveGroup(h) => h == g && s.groups[g].leader != p && t.info[p] in {Some(g), None}
    case LeaveSelf(h) => h == g && s.groups[g].leader != p && t.info[p] in {Some(g), None}
    case Telling(h, _, _) => s.groups[g].leader != p && t.info[p] == None
    case DisbandGroup(h) => h == g && s.groups[g].leader == p
    case DisbandRegister(h) => h == g && s.groups[g].leader == p
    case Disbanding(h, m, rest) =>
      && h == g && s.groups[g].leader == p && p !in t.registry
      && (p == m || p in rest || t.info[p] == None)
    case Idle => t.info[p] == None && (s.groups[g].leader == p ==> p !in t.registry)
    case _ => false
  }

  lemma LeaveAside(s: State, t: State, t': State, p: Pid, g: Gid)
    requires LeaveOn(s, t, p, g) && LeftBy(t, t', p)
    ensures LeaveOn(s, t', p, g)
  {
  }

  lemma LeaveOwn(s: State, t: State, p: Pid, pick: Pid, g: Gid, strays: set<Pid>)
    requires LeaveOn(s, t, p, g) && t.pcs[p] != Idle && PickOk(Todo(t, p), pick) && Inv(t, strays)
    ensures LeaveOn(s, Gone(t, p, pick), p, g)
  {
    assert Local(t, p, strays);
    if t.pcs[p].DisbandRegister? {
      assert Listed(t, g);
      assert p in Members(t, g);
    }
  }

  lemma {:induction false} LeaveAlong(run: seq<State>, split: bool, a: nat, k: nat, p: Pid, g: Gid)
    requires Under(run, split, a, k, p, StartLeave) && run[a].info[p] == Some(g)
    ensures LeaveOn(run[a], run[k], p, g)
    decreases k
  {
    if k == a + 1 {
      RunKeeps(run, split, a);
    } else {
      LeaveAlong(run, split, a, k - 1, p, g);
      var pick := OwnOrLeft(run, split, k - 1, p);
      RunKeeps(run, split, k - 1);
      if Goes(run[k - 1], run[k], p, pick) {
        LeaveOwn(run[a], run[k - 1], p, pick, g, Strayed(run, k - 1));
      } else {
        LeaveAside(run[a], run[k - 1], run[k], p, g);
      }
    }
  }

  /** GROUP LEAVE: the player is in no group afterwards. If it led its group, that is not
      registered any more, and nobody is in it who has not strayed into it. */
  lemma LeaveFrees(run: seq<State>, split: bool, a: nat, b: nat, p: Pid)
    requires Runs(run, split, a, b, p, StartLeave)
    ensures p in run[a].info && p in run[b].info && run[b].info[p] == None
    ensures run[a].info[p].Some? ==>
              var g := run[a].info[p].value;
              && g < |run[a].groups| && !(Registered(run[b], g) && p in run[b].groups[g].members)
              && (run[a].groups[g].leader == p ==>
                    !Registered(run[b], g) && forall q :: q in run[b].info && run[b].info[q] == Some(g) ==> q in Strayed(run, b))
  {
    RunKeeps(run, split, b);
    if run[a].info[p].Some? {
      var g := run[a].info[p].value;
      LeaveAlong(run, split, a, b, p, g);
      assert Registered(run[b], g) ==> Listed(run[b], g);
      if run[a].groups[g].leader == p {
        forall q | q in run[b].info && run[b].info[q] == Some(g) ensures q in Strayed(run, b) {
          assert Placed(run[b], Strayed(run, b), q, g);
        }
      }
    }
  }

  // ---- Telling the members ----

  /** At this moment the player's command is about to tell, or to let go, that member. */
  ghost predicate Visits(s: State, p: Pid, q: Pid) {
    p in s.pcs && ((s.pcs[p].Telling? && s.pcs[p].m == q) || (s.pcs[p].Disbanding? && s.pcs[p].m == q))
  }

  ghost predicate ToVisit(s: State, p: Pid, q: Pid) {
    Visits(s, p, q) || (p in s.pcs && (s.pcs[p].Telling? || s.pcs[p].Disbanding?) && q in s.pcs[p].rest)
  }

  lemma NextVisit(s: State, p: Pid, pick: Pid, q: Pid)
    requires p in s.pcs && p in s.info && PickOk(Todo(s, p), pick) && ToVisit(s, p, q) && !Visits(s, p, q)
    ensures ToVisit(Gone(s, p, pick), p, q)
  {
  }

  /** Whoever is on the list is visited before the command ends. */
  lemma {:induction false} EachIsVisited(run: seq<State>, split: bool, k: nat, b: nat, p: Pid, q: Pid) returns (j: nat)
    requires Run(run, split) && k < b < |run| && p in run[b].pcs && run[b].pcs[p] == Idle
    requires (forall i :: k <= i < b ==> Busy(run[i], p)) && ToVisit(run[k], p, q)
    ensures k <= j < b && Visits(run[j], p, q)
    decreases b - k
  {
    if Visits(run[k], p, q) {
      j := k;
    } else {
      var pick := OwnOrLeft(run, split, k, p);
      if Goes(run[k], run[k + 1], p, pick) {
        NextVisit(run[k], p, pick, q);
      }
      j := EachIsVisited(run, split, k + 1, b, p, q);
    }
  }

  /** The members that a step makes the command's business: those of the group entered, left or
      disbanded, the player itself only in a disband. */
  lemma ListsMembers(s: State, p: Pid, pick: Pid, q: Pid)
    requires p in s.pcs && p in s.info && PickOk(Todo(s, p), pick)
    requires
      || (s.pcs[p].JoinSelf? && s.info[p].None? && q in Members(s, s.pcs[p].g) && q != p)
      || (s.pcs[p].LeaveSelf? && s.info[p] == Some(s.pcs[p].g) && q in Members(s, s.pcs[p].g) && q != p)
      || (s.pcs[p].DisbandRegister? && q in Members(s, s.pcs[p].g))
    ensures ToVisit(Gone(s, p, pick), p, q)
  {
    assert q in Todo(s, p);
    assert pick in Todo(s, p);
  }

  /** A join or leave that takes effect tells every other member, and a disband lets every member
      go, before the command is over. */
  lemma EverybodyIsVisited(run: seq<State>, split: bool, k: nat, b: nat, p: Pid, pick: Pid, q: Pid) returns (j: nat)
    requires Run(run, split) && k < b < |run| && p in run[b].pcs && run[b].pcs[p] == Idle
    requires (forall i :: k <= i < b ==> Busy(run[i], p)) && Goes(run[k], run[k + 1], p, pick)
    requires
      || (run[k].pcs[p].JoinSelf? && run[k].info[p].None? && q in Members(run[k], run[k].pcs[p].g) && q != p)
      || (run[k].pcs[p].LeaveSelf? && run[k].info[p] == Some(run[k].pcs[p].g) && q in Members(run[k], run[k].pcs[p].g) && q != p)
      || (run[k].pcs[p].DisbandRegister? && q in Members(run[k], run[k].pcs[p].g))
    ensures k < j < b && Visits(run[j], p, q)
  {
    ListsMembers(run[k], p, pick, q);
    j := EachIsVisited(run, split, k + 1, b, p, q);
  }
}
