/** The group commands over whole runs: who is in its group, exactly. */
module PartyRuns {
  import opened Wrappers
  import opened PartyLocks
  import opened PartySteps

  // ---- One step ----

  /** A free player enters a group that is no longer registered. */
  ghost predicate Strays(s: State, s': State, p: Pid) {
    p in s.pcs && p in s.info && p in s'.info && StraysNow(s, p) && s'.info[p].Some?
  }

  ghost function StraysIn(s: State, s': State): set<Pid> {
    set p | p in s.pcs && Strays(s, s', p)
  }

  lemma EntersItself(s: State, t: Pid, pick: Pid, p: Pid)
    requires t in s.pcs && t in s.info && p in s.info && s.info[p].None?
    ensures var s' := Gone(s, t, pick); p in s'.info && (s'.info[p].Some? ==> p == t)
    ensures p == t && StraysNow(s, t) ==> Gone(s, t, pick).info[t].Some?
  {
  }

  lemma WhoStrays(s: State, s': State, t: Pid, mv: Move, split: bool)
    requires Step(s, s', t, mv, split)
    ensures forall p :: Strays(s, s', p) <==> mv.Go? && p == t && StraysNow(s, t)
  {
    forall p ensures Strays(s, s', p) <==> mv.Go? && p == t && StraysNow(s, t) {
      if mv.Go? && p in s.info && s.info[p].None? {
        EntersItself(s, t, mv.pick, p);
      }
    }
  }

  /** Every step keeps the invariant, with whoever strays in it counted among the strays. */
  lemma StepKeeps(s: State, s': State, strays: set<Pid>, t: Pid, mv: Move, split: bool)
    requires Inv(s, strays) && Step(s, s', t, mv, split)
    ensures Inv(s', strays + StraysIn(s, s'))
  {
    var more := strays + StraysIn(s, s');
    MoreStrays(s, strays, more);
    WhoStrays(s, s', t, mv, split);
    if mv.Go? {
      GoKeeps(s, more, t, mv.pick);
    } else {
      StartKeeps(s, more, t, mv);
    }
  }

  /** A player without a group, or in it: a registered one, one that it is creating, or one
      that is being disbanded and has yet to visit it. */
  ghost predicate Housed(s: State, p: Pid) {
    p in s.info && (s.info[p].Some? ==> InGroup(s, p, s.info[p].value))
  }

  lemma StrayIsOut(s: State, strays: set<Pid>, t: Pid, pick: Pid)
    requires Inv(s, strays) && CanGo(s, t) && StraysNow(s, t)
    ensures !Housed(Gone(s, t, pick), t)
  {
    var g := s.pcs[t].g;
    assert Local(s, t, strays);
    OthersDoNotHold(s, t, GroupMu(g));
  }

  /** The exact condition, at the granularity of the code: a player that has never strayed is in
      its group after a step if and only if the step is not its own entering, free as it is, of
      a group that is no longer registered. */
  lemma StepExact(s: State, s': State, strays: set<Pid>, t: Pid, mv: Move, split: bool, p: Pid)
    requires Inv(s, strays) && Step(s, s', t, mv, split) && p in s.pcs && p !in strays
    ensures Housed(s', p) <==> !(mv.Go? && p == t && StraysNow(s, t))
  {
    WhoStrays(s, s', t, mv, split);
    if mv.Go? && p == t && StraysNow(s, t) {
      StrayIsOut(s, strays, t, mv.pick);
    } else {
      StepKeeps(s, s', strays, t, mv, split);
      assert p in s'.info && (s'.info[p].Some? ==> Placed(s', strays + StraysIn(s, s'), p, s'.info[p].value));
    }
  }

  // ---- Runs ----

  ghost predicate Init(s: State) {
    && s.info.Keys == s.pcs.Keys && s.groups == [] && s.registry == map[]
    && forall p :: p in s.pcs ==> s.pcs[p] == Idle && s.info[p] == None
  }

  ghost predicate StepTo(s: State, s': State, split: bool) {
    exists t, mv :: Step(s, s', t, mv, split)
  }

  ghost predicate Run(run: seq<State>, split: bool) {
    run != [] && Init(run[0]) && forall i :: 0 <= i < |run| - 1 ==> StepsAt(run, i, split)
  }

  ghost predicate StepsAt(run: seq<State>, i: nat, split: bool)
    requires i + 1 < |run|
  {
    StepTo(run[i], run[i + 1], split)
  }

  ghost predicate StraysAt(run: seq<State>, i: nat, p: Pid)
    requires i + 1 < |run|
  {
    Strays(run[i], run[i + 1], p)
  }

  /** The players that have strayed in the first n steps. */
  ghost function Strayed(run: seq<State>, n: nat): set<Pid>
    requires n < |run|
  {
    if n == 0 then {} else Strayed(run, n - 1) + StraysIn(run[n - 1], run[n])
  }

  lemma {:induction false} StrayedSome(run: seq<State>, n: nat, p: Pid)
    requires n < |run|
    ensures p in Strayed(run, n) <==> exists i :: 0 <= i < n && StraysAt(run, i, p)
  {
    if n > 0 {
      StrayedSome(run, n - 1, p);
      assert StraysAt(run, n - 1, p) <==> p in StraysIn(run[n - 1], run[n]);
    }
  }

  lemma InitKeeps(s: State)
    requires Init(s)
    ensures Inv(s, {})
  {
  }

  /** In every run, however the lock steps are interleaved: the locks have one holder, the
      members of a registered group are in it, and every player but the strayed is in its group. */
  lemma {:induction false} RunKeeps(run: seq<State>, split: bool, n: nat)
    requires Run(run, split) && n < |run|
    ensures Inv(run[n], Strayed(run, n))
  {
    if n == 0 {
      InitKeeps(run[0]);
    } else {
      RunKeeps(run, split, n - 1);
      assert StepsAt(run, n - 1, split);
      var t, mv :| Step(run[n - 1], run[n], t, mv, split);
      StepKeeps(run[n - 1], run[n], Strayed(run, n - 1), t, mv, split);
    }
  }

  ghost predicate HousedUpTo(run: seq<State>, n: nat, p: Pid)
    requires n < |run|
  {
    forall i :: 0 <= i <= n ==> Housed(run[i], p)
  }

  lemma OneMoreStep(run: seq<State>, split: bool, n: nat, p: Pid)
    requires Run(run, split) && n + 1 < |run| && p in run[n].pcs && p !in Strayed(run, n)
    ensures Housed(run[n + 1], p) <==> !StraysAt(run, n, p)
  {
    RunKeeps(run, split, n);
    assert StepsAt(run, n, split);
    var t, mv :| Step(run[n], run[n + 1], t, mv, split);
    StepExact(run[n], run[n + 1], Strayed(run, n), t, mv, split, p);
    WhoStrays(run[n], run[n + 1], t, mv, split);
  }

  lemma {:induction false} SamePlayers(run: seq<State>, split: bool, n: nat)
    requires Run(run, split) && n < |run|
    ensures run[n].pcs.Keys == run[0].pcs.Keys
  {
    if n > 0 {
      SamePlayers(run, split, n - 1);
      assert StepsAt(run, n - 1, split);
      var t, mv :| Step(run[n - 1], run[n], t, mv, split);
      if mv.Go? {
        GoneMovesOne(run[n - 1], t, mv.pick);
      }
    }
  }

  lemma GoneMovesOne(s: State, t: Pid, pick: Pid)
    requires t in s.pcs && t in s.info
    ensures var s' := Gone(s, t, pick);
      s'.pcs.Keys == s.pcs.Keys && forall u :: u in s.pcs && u != t ==> s'.pcs[u] == s.pcs[u]
  {
  }

  /** Over whole runs: a player is in its group all along if and only if it never enters a group
      that is no longer registered. */
  lemma {:induction false} PlayerExact(run: seq<State>, split: bool, n: nat, p: Pid)
    requires Run(run, split) && n < |run| && p in run[0].pcs
    ensures HousedUpTo(run, n, p) <==> p !in Strayed(run, n)
  {
    if n > 0 {
      PlayerExact(run, split, n - 1, p);
      SamePlayers(run, split, n - 1);
      assert HousedUpTo(run, n, p) <==> HousedUpTo(run, n - 1, p) && Housed(run[n], p);
      if p !in Strayed(run, n - 1) {
        OneMoreStep(run, split, n - 1, p);
      }
    }
  }

  lemma {:induction false} OnlyPlayersStray(run: seq<State>, split: bool, n: nat, p: Pid)
    requires Run(run, split) && n < |run| && p in Strayed(run, n)
    ensures p in run[0].pcs
  {
    if p in Strayed(run, n - 1) {
      OnlyPlayersStray(run, split, n - 1, p);
    } else {
      SamePlayers(run, split, n - 1);
    }
  }

  /** So everybody is, all along, if and only if nobody does that. */
  lemma RunExact(run: seq<State>, split: bool, n: nat)
    requires Run(run, split) && n < |run|
    ensures (forall p :: p in run[0].pcs ==> HousedUpTo(run, n, p)) <==> Strayed(run, n) == {}
  {
    forall p | p in run[0].pcs ensures HousedUpTo(run, n, p) <==> p !in Strayed(run, n) {
      PlayerExact(run, split, n, p);
    }
    if p :| p in Strayed(run, n) {
      OnlyPlayersStray(run, split, n, p);
    }
  }

  /** With every command over, the group of every player that has never strayed is registered
      and lists it. */
  lemma SettledInGroups(run: seq<State>, split: bool, n: nat, p: Pid)
    requires Run(run, split) && n < |run|
    requires forall t :: t in run[n].pcs ==> run[n].pcs[t] == Idle
    requires p in run[n].info && run[n].info[p].Some? && p !in Strayed(run, n)
    ensures Registered(run[n], run[n].info[p].value) && p in run[n].groups[run[n].info[p].value].members
  {
    RunKeeps(run, split, n);
    assert Placed(run[n], Strayed(run, n), p, run[n].info[p].value);
  }

  // ---- Lookup and lock in one step ----

  /** No join stands between lookup and lock, and one that holds its group's lock finds the
      group registered. */
  ghost predicate NobodyBetween(s: State) {
    forall t :: t in s.pcs ==> JoinsInTime(s, t)
  }

  ghost predicate JoinsInTime(s: State, t: Pid)
    requires t in s.pcs
  {
    !s.pcs[t].JoinGroup? && (s.pcs[t].JoinSelf? ==> Registered(s, s.pcs[t].g))
  }

  lemma StaysRegistered(s: State, t: Pid, pick: Pid, u: Pid, g: Gid)
    requires Inv(s, {}) && CanGo(s, t) && u in s.pcs && u != t && s.pcs[u] == JoinSelf(g) && Registered(s, g)
    ensures Registered(Gone(s, t, pick), g)
  {
    assert Local(s, t, {});
    OthersDoNotHold(s, u, GroupMu(g));
  }

  lemma OneStepKeeps(s: State, s': State, t: Pid, mv: Move)
    requires Inv(s, {}) && Step(s, s', t, mv, false) && NobodyBetween(s)
    ensures NobodyBetween(s') && StraysIn(s, s') == {}
  {
    WhoStrays(s, s', t, mv, false);
    assert JoinsInTime(s, t);
    forall u | u in s'.pcs ensures JoinsInTime(s', u) {
      if u != t {
        OtherJoinsInTime(s, s', t, mv, u);
      } else {
        OwnJoinInTime(s, s', t, mv);
      }
    }
  }

  lemma OwnJoinInTime(s: State, s': State, t: Pid, mv: Move)
    requires Domains(s) && Step(s, s', t, mv, false) && JoinsInTime(s, t)
    ensures t in s'.pcs && JoinsInTime(s', t)
  {
    if mv.Go? && !s.pcs[t].JoinFind? {
      GoneLocksNone(s, t, mv.pick);
    }
  }

  lemma GoneLocksNone(s: State, t: Pid, pick: Pid)
    requires t in s.pcs && t in s.info && !s.pcs[t].JoinFind? && !s.pcs[t].JoinGroup? && s.pcs[t] != Idle
    ensures var s' := Gone(s, t, pick); t in s'.pcs && !s'.pcs[t].JoinGroup? && !s'.pcs[t].JoinSelf?
  {
  }

  lemma OtherJoinsInTime(s: State, s': State, t: Pid, mv: Move, u: Pid)
    requires Inv(s, {}) && Step(s, s', t, mv, false) && u in s'.pcs && u != t && NobodyBetween(s)
    ensures JoinsInTime(s', u)
  {
    if mv.Go? {
      GoneMovesOne(s, t, mv.pick);
      assert JoinsInTime(s, u);
      if s.pcs[u].JoinSelf? {
        StaysRegistered(s, t, mv.pick, u, s.pcs[u].g);
      }
    } else {
      assert JoinsInTime(s, u);
    }
  }

  /** Were lookup and lock one step, nobody would ever stray. */
  lemma {:induction false} OneStepIsEnough(run: seq<State>, n: nat)
    requires Run(run, false) && n < |run|
    ensures Strayed(run, n) == {} && NobodyBetween(run[n])
    ensures Inv(run[n], {})
  {
    if n > 0 {
      OneStepIsEnough(run, n - 1);
      assert StepsAt(run, n - 1, false);
      var t, mv :| Step(run[n - 1], run[n], t, mv, false);
      OneStepKeeps(run[n - 1], run[n], t, mv);
    }
    RunKeeps(run, false, n);
  }
}
