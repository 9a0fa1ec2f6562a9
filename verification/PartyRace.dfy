/** Two runs in which a join locks a group that was disbanded after it was looked up. */
module PartyRace {
  import opened Wrappers
  import opened PartyLocks
  import opened PartyRings
  import opened PartyRuns

  ghost predicate Reaches(s: State) {
    exists run :: Run(run, true) && run[|run| - 1] == s
  }

  lemma Extends(s: State, s': State, t: Pid, mv: Move)
    requires Reaches(s) && Step(s, s', t, mv, true)
    ensures Reaches(s')
  {
    var run :| Run(run, true) && run[|run| - 1] == s;
    var longer := run + [s'];
    forall i | 0 <= i < |longer| - 1 ensures StepsAt(longer, i, true) {
      if i < |run| - 1 {
        assert StepsAt(run, i, true);
      } else {
        assert StepTo(s, s', true);
      }
    }
    assert longer[|longer| - 1] == s';
  }

  lemma Starts(s: State, t: Pid, mv: Move) returns (s': State)
    requires Reaches(s) && t in s.pcs && t in s.info && s.pcs[t] == Idle && (mv.StartCreate? || mv.StartLeave?)
    ensures s' == At(s, t, Started(s, t, mv)) && Reaches(s')
  {
    s' := At(s, t, Started(s, t, mv));
    Extends(s, s', t, mv);
  }

  lemma LooksUp(s: State, t: Pid, l: Pid) returns (s': State)
    requires Reaches(s) && t in s.pcs && t in s.info && s.pcs[t] == Idle && l in s.registry
    requires forall u :: u in s.pcs ==> !Holds(u, s.pcs[u], PartiesMu)
    ensures s' == At(s, t, JoinGroup(s.registry[l])) && Reaches(s')
  {
    s' := At(s, t, JoinGroup(s.registry[l]));
    Extends(s, s', t, Lookup(l));
  }

  lemma Goes(s: State, t: Pid, pick: Pid, k: Lock) returns (s': State)
    requires Reaches(s) && t in s.pcs && t in s.info && s.pcs[t] != Idle && !s.pcs[t].JoinFind?
    requires Awaits(s, t, k) && (forall u :: u in s.pcs ==> !Holds(u, s.pcs[u], k)) && PickOk(Todo(s, t), pick)
    ensures s' == Gone(s, t, pick) && Reaches(s')
  {
    s' := Gone(s, t, pick);
    forall u ensures !WaitsFor(s, t, u) {
      if u in s.pcs {
        forall j | Awaits(s, t, j) ensures !Holds(u, s.pcs[u], j) {
          assert j == k;
        }
      }
    }
    Extends(s, s', t, Go(pick));
  }

  /** Three players, by what they are in and where they stand. */
  function Three(a: Option<Gid>, b: Option<Gid>, c: Option<Gid>, groups: seq<Group>, registry: map<Pid, Gid>,
                 p: PC, q: PC, r: PC): State {
    State(map[0 := a, 1 := b, 2 := c], groups, registry, map[0 := p, 1 := q, 2 := r])
  }

  // Player 1 and player 2 lead groups 0 and 1, and player 0 is in group 1. Player 0 looks group 0
  // up, player 1 disbands it and looks group 1 up, player 2 disbands that; then both join.

  lemma Player0GoesIn()
    ensures Gone(Three(None, Some(0), Some(1), [Group(1, {1}), Group(2, {2})], map[1 := 0, 2 := 1], JoinSelf(1), Idle, Idle), 0, 2) ==
            Three(Some(1), Some(0), Some(1), [Group(1, {1}), Group(2, {0, 2})], map[1 := 0, 2 := 1], Telling(1, 2, {}), Idle, Idle)
  {
    assert {2} - {0} == {2} && {2} + {0} == {0, 2} && {2} - {2} == {};
  }

  lemma Player1Creates() returns (s: State)
    ensures Reaches(s) && s == Three(None, None, None, [], map[], Idle, CreateSelf, Idle)
  {
    s := Three(None, None, None, [], map[], Idle, Idle, Idle);
    assert Run([s], true);
    assert [s][|[s]| - 1] == s;
    s := Starts(s, 1, StartCreate);
  }

  lemma Player1Founds() returns (s: State)
    ensures Reaches(s) && s == Three(None, Some(0), None, [Group(1, {1})], map[], Idle, CreateRegister(0), Idle)
  {
    s := Player1Creates();
    assert [] + [Group(1, {1})] == [Group(1, {1})];
    s := Goes(s, 1, 0, PlayerMu(1));
  }

  lemma Player1Leads() returns (s: State)
    ensures Reaches(s) && s == Three(None, Some(0), None, [Group(1, {1})], map[1 := 0], Idle, Idle, Idle)
  {
    s := Player1Founds();
    s := Goes(s, 1, 0, PartiesMu);
  }

  lemma Player2Creates() returns (s: State)
    ensures Reaches(s) && s == Three(None, Some(0), None, [Group(1, {1})], map[1 := 0], Idle, Idle, CreateSelf)
  {
    s := Player1Leads();
    s := Starts(s, 2, StartCreate);
  }

  lemma Player2Leads() returns (s: State)
    ensures Reaches(s) && s == Three(None, Some(0), Some(1), [Group(1, {1}), Group(2, {2})], map[1 := 0, 2 := 1], Idle, Idle, Idle)
  {
    s := Player2Creates();
    s := Goes(s, 2, 0, PlayerMu(2));
    assert s == Three(None, Some(0), Some(1), [Group(1, {1}), Group(2, {2})], map[1 := 0], Idle, Idle, CreateRegister(1));
    s := Goes(s, 2, 0, PartiesMu);
  }

  lemma Player0Finds() returns (s: State)
    ensures Reaches(s) && s == Three(None, Some(0), Some(1), [Group(1, {1}), Group(2, {2})], map[1 := 0, 2 := 1], JoinSelf(1), Idle, Idle)
  {
    s := Player2Leads();
    s := LooksUp(s, 0, 2);
    assert s == Three(None, Some(0), Some(1), [Group(1, {1}), Group(2, {2})], map[1 := 0, 2 := 1], JoinGroup(1), Idle, Idle);
    s := Goes(s, 0, 0, GroupMu(1));
  }

  lemma Player0Joins() returns (s: State)
    ensures Reaches(s) && s == Three(Some(1), Some(0), Some(1), [Group(1, {1}), Group(2, {0, 2})], map[1 := 0, 2 := 1], Telling(1, 2, {}), Idle, Idle)
  {
    s := Player0Finds();
    assert {2} - {0} == {2};
    Player0GoesIn();
    s := Goes(s, 0, 2, PlayerMu(0));
  }

  lemma Player0IsIn() returns (s: State)
    ensures Reaches(s) && s == Three(Some(1), Some(0), Some(1), [Group(1, {1}), Group(2, {0, 2})], map[1 := 0, 2 := 1], Idle, Idle, Idle)
  {
    s := Player0Joins();
    s := Goes(s, 0, 0, PlayerMu(2));
  }

  lemma Player0LooksUp() returns (s: State)
    ensures Reaches(s) && s == Three(Some(1), Some(0), Some(1), [Group(1, {1}), Group(2, {0, 2})], map[1 := 0, 2 := 1], JoinGroup(0), Idle, Idle)
  {
    s := Player0IsIn();
    s := LooksUp(s, 0, 1);
  }

  lemma Player1StartsToDisband() returns (s: State)
    ensures Reaches(s) && s == Three(Some(1), Some(0), Some(1), [Group(1, {1}), Group(2, {0, 2})], map[1 := 0, 2 := 1], JoinGroup(0), DisbandRegister(0), Idle)
  {
    s := Player0LooksUp();
    s := Starts(s, 1, StartLeave);
    assert s == Three(Some(1), Some(0), Some(1), [Group(1, {1}), Group(2, {0, 2})], map[1 := 0, 2 := 1], JoinGroup(0), DisbandGroup(0), Idle);
    s := Goes(s, 1, 0, GroupMu(0));
  }

  lemma Player1Strikes() returns (s: State)
    ensures Reaches(s) && s == Three(Some(1), Some(0), Some(1), [Group(1, {1}), Group(2, {0, 2})], map[2 := 1], JoinGroup(0), Disbanding(0, 1, {}), Idle)
  {
    s := Player1StartsToDisband();
    assert {1} - {1} == {};
    assert map[1 := 0, 2 := 1] - {1} == map[2 := 1];
    s := Goes(s, 1, 1, PartiesMu);
  }

  lemma Player1IsFree() returns (s: State)
    ensures Reaches(s) && s == Three(Some(1), None, Some(1), [Group(1, {1}), Group(2, {0, 2})], map[2 := 1], JoinGroup(0), Idle, Idle)
  {
    s := Player1Strikes();
    s := Goes(s, 1, 0, PlayerMu(1));
  }

  lemma Player1LooksUp() returns (s: State)
    ensures Reaches(s) && s == Three(Some(1), None, Some(1), [Group(1, {1}), Group(2, {0, 2})], map[2 := 1], JoinGroup(0), JoinGroup(1), Idle)
  {
    s := Player1IsFree();
    s := LooksUp(s, 1, 2);
  }

  lemma Player2StartsToDisband() returns (s: State)
    ensures Reaches(s) && s == Three(Some(1), None, Some(1), [Group(1, {1}), Group(2, {0, 2})], map[2 := 1], JoinGroup(0), JoinGroup(1), DisbandRegister(1))
  {
    s := Player1LooksUp();
    s := Starts(s, 2, StartLeave);
    assert s == Three(Some(1), None, Some(1), [Group(1, {1}), Group(2, {0, 2})], map[2 := 1], JoinGroup(0), JoinGroup(1), DisbandGroup(1));
    s := Goes(s, 2, 0, GroupMu(1));
  }

  lemma Player2Strikes() returns (s: State)
    ensures Reaches(s) && s == Three(Some(1), None, Some(1), [Group(1, {1}), Group(2, {0, 2})], map[], JoinGroup(0), JoinGroup(1), Disbanding(1, 2, {0}))
  {
    s := Player2StartsToDisband();
    assert {0, 2} - {2} == {0};
    assert map[2 := 1] - {2} == map[];
    s := Goes(s, 2, 2, PartiesMu);
  }

  lemma Player2Visits() returns (s: State)
    ensures Reaches(s) && s == Three(Some(1), None, None, [Group(1, {1}), Group(2, {0, 2})], map[], JoinGroup(0), JoinGroup(1), Disbanding(1, 0, {}))
  {
    s := Player2Strikes();
    assert {0} - {0} == {};
    s := Goes(s, 2, 0, PlayerMu(2));
  }

  lemma Player2Disbands() returns (s: State)
    ensures Reaches(s) && s == Three(None, None, None, [Group(1, {1}), Group(2, {0, 2})], map[], JoinGroup(0), JoinGroup(1), Idle)
  {
    s := Player2Visits();
    s := Goes(s, 2, 0, PlayerMu(0));
  }

  lemma Player0Locks() returns (s: State)
    ensures Reaches(s) && s == Three(None, None, None, [Group(1, {1}), Group(2, {0, 2})], map[], JoinSelf(0), JoinGroup(1), Idle)
  {
    s := Player2Disbands();
    s := Goes(s, 0, 0, GroupMu(0));
  }

  lemma Player0Enters() returns (s: State)
    ensures Reaches(s) && s == Three(Some(0), None, None, [Group(1, {0, 1}), Group(2, {0, 2})], map[], Telling(0, 1, {}), JoinGroup(1), Idle)
  {
    s := Player0Locks();
    assert {1} - {0} == {1} && {1} + {0} == {0, 1} && {1} - {1} == {};
    s := Goes(s, 0, 1, PlayerMu(0));
  }

  lemma Player1Locks() returns (s: State)
    ensures Reaches(s) && s == Three(Some(0), None, None, [Group(1, {0, 1}), Group(2, {0, 2})], map[], Telling(0, 1, {}), JoinSelf(1), Idle)
  {
    s := Player0Enters();
    s := Goes(s, 1, 0, GroupMu(1));
  }

  lemma Player1Enters() returns (s: State)
    ensures Reaches(s) && s == Three(Some(0), Some(1), None, [Group(1, {0, 1}), Group(2, {0, 1, 2})], map[], Telling(0, 1, {}), Telling(1, 0, {2}), Idle)
  {
    s := Player1Locks();
    assert {0, 2} - {1} == {0, 2} && {0, 2} + {1} == {0, 1, 2} && {0, 2} - {0} == {2};
    s := Goes(s, 1, 0, PlayerMu(1));
  }

  /** Found and locked in two steps, a join can enter a group that is no longer registered. */
  lemma JoinsADisbandedGroup() returns (s: State)
    ensures Reaches(s) && 0 in s.info && s.info[0] == Some(0) && !Registered(s, 0)
  {
    s := Player0Enters();
  }

  /** And two such joins can wait for each other for ever: each is telling the members of a
      disbanded group, whose member list was never emptied, while holding its own lock. */
  lemma JoinsCanDeadlock() returns (s: State)
    ensures Reaches(s) && IsRing(s, [0, 1])
  {
    s := Player1Enters();
    assert Awaits(s, 0, PlayerMu(1)) && Holds(1, s.pcs[1], PlayerMu(1));
    assert Awaits(s, 1, PlayerMu(0)) && Holds(0, s.pcs[0], PlayerMu(0));
  }
}
