/** The load-time balance of the key items a quest's steps grant and take back, and what
    it promises about the inventory of a player on that quest. */
module KeyItemBalance {
  import opened Wrappers
  import opened SeqSets
  import opened QuestChain
  import opened QuestLog

  // ---- The load-time check ----

  /** The list after the grants of a step: an item already listed is an error, not added. */
  function GrantAll(w: World, listed: seq<KeyItem>, grants: seq<KeyItem>): seq<KeyItem>
    decreases |grants|
  {
    if grants == [] then listed
    else
      var g := grants[|grants| - 1];
      var before := GrantAll(w, listed, grants[..|grants| - 1]);
      if g in w.boosts && g !in before then before + [g] else before
  }

  function Without(s: seq<KeyItem>, x: KeyItem): seq<KeyItem> {
    if s == [] then [] else if s[0] == x then s[1..] else [s[0]] + Without(s[1..], x)
  }

  function ReceiveAll(w: World, listed: seq<KeyItem>, receives: seq<KeyItem>): seq<KeyItem>
    decreases |receives|
  {
    if receives == [] then listed
    else
      var r := receives[|receives| - 1];
      var before := ReceiveAll(w, listed, receives[..|receives| - 1]);
      if r in w.boosts then Without(before, r) else before
  }

  /** The check's list of granted and not yet received items after the first i steps. */
  function Outstanding(w: World, steps: seq<Step>, i: nat): seq<KeyItem>
    requires i <= |steps|
    decreases i
  {
    if i == 0 then []
    else if steps[i - 1].TalkTo? then
      ReceiveAll(w, GrantAll(w, Outstanding(w, steps, i - 1), steps[i - 1].grants), steps[i - 1].receives)
    else Outstanding(w, steps, i - 1)
  }

  ghost predicate GrantsFine(w: World, listed: seq<KeyItem>, grants: seq<KeyItem>) {
    forall j :: 0 <= j < |grants| ==> grants[j] in w.boosts && grants[j] !in GrantAll(w, listed, grants[..j])
  }

  ghost predicate ReceivesFine(w: World, listed: seq<KeyItem>, receives: seq<KeyItem>, somewhere: set<KeyItem>) {
    forall j :: 0 <= j < |receives| ==>
      && receives[j] in w.boosts
      && (receives[j] in ReceiveAll(w, listed, receives[..j]) || receives[j] in somewhere)
  }

  ghost predicate StepFine(w: World, steps: seq<Step>, i: nat, somewhere: set<KeyItem>)
    requires i < |steps|
  {
    steps[i].TalkTo? ==>
      var listed := Outstanding(w, steps, i);
      && GrantsFine(w, listed, steps[i].grants)
      && ReceivesFine(w, GrantAll(w, listed, steps[i].grants), steps[i].receives, somewhere)
  }

  ghost predicate Balanced(w: World, steps: seq<Step>, somewhere: set<KeyItem>) {
    && (forall i :: 0 <= i < |steps| ==> StepFine(w, steps, i, somewhere))
    && Outstanding(w, steps, |steps|) == []
  }

  /** The key-item part of validating one quest; somewhere holds every item that any step
      grants or any reward gives. */
  method CheckBalance(w: World, steps: seq<Step>, somewhere: set<KeyItem>) returns (errors: nat)
    ensures errors == 0 <==> Balanced(w, steps, somewhere)
  {
    errors := 0;
    var listed: seq<KeyItem> := [];
    for i := 0 to |steps|
      invariant listed == Outstanding(w, steps, i)
      invariant errors == 0 <==> forall j :: 0 <= j < i ==> StepFine(w, steps, j, somewhere)
    {
      if steps[i].TalkTo? {
        var e1, e2;
        listed, e1 := CheckGrants(w, listed, steps[i].grants);
        listed, e2 := CheckReceives(w, listed, steps[i].receives, somewhere);
        assert StepFine(w, steps, i, somewhere) <==> e1 == 0 && e2 == 0;
        errors := errors + e1 + e2;
      }
    }
    if |listed| > 0 {
      errors := errors + 1;
    }
  }

  method CheckGrants(w: World, start: seq<KeyItem>, grants: seq<KeyItem>) returns (listed: seq<KeyItem>, errors: nat)
    ensures listed == GrantAll(w, start, grants)
    ensures errors == 0 <==> GrantsFine(w, start, grants)
  {
    listed, errors := start, 0;
    for j := 0 to |grants|
      invariant listed == GrantAll(w, start, grants[..j])
      invariant errors == 0 <==> forall n :: 0 <= n < j ==> grants[n] in w.boosts && grants[n] !in GrantAll(w, start, grants[..n])
    {
      assert grants[..j + 1][..j] == grants[..j];
      if grants[j] !in w.boosts || grants[j] in listed {
        errors := errors + 1;
      } else {
        listed := listed + [grants[j]];
      }
    }
    assert grants[..|grants|] == grants;
  }

  method CheckReceives(w: World, start: seq<KeyItem>, receives: seq<KeyItem>, somewhere: set<KeyItem>)
    returns (listed: seq<KeyItem>, errors: nat)
    ensures listed == ReceiveAll(w, start, receives)
    ensures errors == 0 <==> ReceivesFine(w, start, receives, somewhere)
  {
    listed, errors := start, 0;
    for j := 0 to |receives|
      invariant listed == ReceiveAll(w, start, receives[..j])
      invariant errors == 0 <==> forall n :: 0 <= n < j ==>
        && receives[n] in w.boosts
        && (receives[n] in ReceiveAll(w, start, receives[..n]) || receives[n] in somewhere)
    {
      assert receives[..j + 1][..j] == receives[..j];
      if receives[j] !in w.boosts {
        errors := errors + 1;
      } else if receives[j] !in listed {
        WithoutMissing(listed, receives[j]);
        if receives[j] !in somewhere {
          errors := errors + 1;
        }
      } else {
        listed := Without(listed, receives[j]);
      }
    }
    assert receives[..|receives|] == receives;
  }

  lemma {:induction false} WithoutMissing(s: seq<KeyItem>, x: KeyItem)
    requires x !in s
    ensures Without(s, x) == s
  {
    if s == [] {
    } else {
      WithoutMissing(s[1..], x);
    }
  }

  lemma {:induction false} WithoutIn(s: seq<KeyItem>, x: KeyItem, y: KeyItem)
    ensures y in Without(s, x) ==> y in s
    ensures NoDup(s) ==> (y in Without(s, x) <==> y in s && y != x)
  {
    if s != [] {
      assert NoDup(s) ==> NoDup(s[1..]);
      WithoutIn(s[1..], x, y);
    }
  }

  lemma {:induction false} WithoutNoDup(s: seq<KeyItem>, x: KeyItem)
    requires NoDup(s)
    ensures NoDup(Without(s, x))
  {
    if s != [] {
      WithoutNoDup(s[1..], x);
      WithoutIn(s[1..], x, s[0]);
    }
  }

  lemma WithoutElems(s: seq<KeyItem>, x: KeyItem)
    requires NoDup(s)
    ensures NoDup(Without(s, x)) && Elems(Without(s, x)) == Elems(s) - {x}
  {
    WithoutNoDup(s, x);
    forall y ensures y in Elems(Without(s, x)) <==> y in Elems(s) - {x} {
      WithoutIn(s, x, y);
    }
  }

  lemma {:induction false} GrantAllElems(w: World, listed: seq<KeyItem>, grants: seq<KeyItem>)
    requires NoDup(listed)
    ensures NoDup(GrantAll(w, listed, grants))
    ensures Elems(GrantAll(w, listed, grants)) == Elems(listed) + Known(w, grants)
    decreases |grants|
  {
    if grants == [] {
    } else {
      var n := |grants| - 1;
      GrantAllElems(w, listed, grants[..n]);
      assert grants == grants[..n] + [grants[n]];
      assert Known(w, grants) == Known(w, grants[..n]) + (if grants[n] in w.boosts then {grants[n]} else {});
      var before := GrantAll(w, listed, grants[..n]);
      assert Elems(before + [grants[n]]) == Elems(before) + {grants[n]};
    }
  }

  lemma {:induction false} ReceiveAllElems(w: World, listed: seq<KeyItem>, receives: seq<KeyItem>)
    requires NoDup(listed)
    ensures NoDup(ReceiveAll(w, listed, receives))
    ensures Elems(ReceiveAll(w, listed, receives)) == Elems(listed) - Known(w, receives)
    decreases |receives|
  {
    if receives == [] {
    } else {
      var n := |receives| - 1;
      ReceiveAllElems(w, listed, receives[..n]);
      assert receives == receives[..n] + [receives[n]];
      assert Known(w, receives) == Known(w, receives[..n]) + (if receives[n] in w.boosts then {receives[n]} else {});
      WithoutElems(ReceiveAll(w, listed, receives[..n]), receives[n]);
    }
  }

  /** Read as a set, the list moves through a step exactly as an inventory does. */
  lemma {:induction false} OutstandingElems(w: World, steps: seq<Step>, i: nat)
    requires i <= |steps|
    ensures NoDup(Outstanding(w, steps, i))
    ensures i > 0 ==> Elems(Outstanding(w, steps, i)) == AfterItems(w, Elems(Outstanding(w, steps, i - 1)), steps[i - 1])
    decreases i
  {
    if i == 0 {
    } else {
      OutstandingElems(w, steps, i - 1);
      if steps[i - 1].TalkTo? {
        var granted := GrantAll(w, Outstanding(w, steps, i - 1), steps[i - 1].grants);
        GrantAllElems(w, Outstanding(w, steps, i - 1), steps[i - 1].grants);
        ReceiveAllElems(w, granted, steps[i - 1].receives);
      }
    }
  }

  // ---- The promise at run time ----

  /** The loaded items some step of the quest grants. */
  ghost function GrantedBy(w: World, steps: seq<Step>): set<KeyItem> {
    set g | g in w.boosts && exists i :: 0 <= i < |steps| && steps[i].TalkTo? && g in steps[i].grants
  }

  ghost predicate Untouched(step: Step, own: set<KeyItem>) {
    step.TalkTo? ==> forall g :: g in own ==> g !in step.grants && g !in step.receives
  }

  /** No other quest's steps, and no reward, touch what this quest's steps grant. */
  ghost predicate Isolated(w: World, q: QuestKey)
    requires q in w.quests
  {
    var own := GrantedBy(w, w.quests[q].steps);
    && (forall k, i :: k in w.quests && k != q && 0 <= i < |w.quests[k].steps| ==> Untouched(w.quests[k].steps[i], own))
    && (forall k :: k in w.quests ==> RewardItem(w, k) !! own)
  }

  /** Of the items it grants, a player holds exactly the outstanding ones. */
  ghost predicate InStep(w: World, s: Log, q: QuestKey)
    requires q in w.quests
  {
    var steps := w.quests[q].steps;
    && (q in s.quests ==> s.quests[q].index <= |steps|)
    && s.keyInventory * GrantedBy(w, steps) ==
       (if q in s.quests then Elems(Outstanding(w, steps, s.quests[q].index)) else {})
  }

  lemma {:induction false} OutstandingOwn(w: World, steps: seq<Step>, i: nat)
    requires i <= |steps|
    ensures Elems(Outstanding(w, steps, i)) <= GrantedBy(w, steps)
    decreases i
  {
    if i == 0 {
    } else {
      OutstandingOwn(w, steps, i - 1);
      OutstandingElems(w, steps, i);
    }
  }

  lemma AfterStepInStep(w: World, s: Log, q: QuestKey, k: QuestKey)
    requires q in w.quests && Isolated(w, q) && InStep(w, s, q) && OnStep(w, s, k)
    ensures InStep(w, AfterStep(w, s, k), q)
  {
    var steps := w.quests[q].steps;
    var own := GrantedBy(w, steps);
    var step := CurrentStep(w, s, k);
    assert RewardItem(w, k) !! own;
    if k == q {
      var i := s.quests[q].index;
      OutstandingElems(w, steps, i + 1);
      OutstandingOwn(w, steps, i);
      if step.TalkTo? {
        assert Known(w, step.grants) <= own;
      }
    } else {
      assert Untouched(w.quests[k].steps[s.quests[k].index], own);
      assert AfterItems(w, s.keyInventory, step) * own == s.keyInventory * own;
    }
    assert AfterStep(w, s, k).keyInventory * own == AfterItems(w, s.keyInventory, step) * own;
  }

  /** The invariant the check is for, over every run of any mixture of quests. */
  lemma {:induction false} RunInStep(w: World, run: seq<Log>, n: nat, q: QuestKey)
    requires w.Ok() && q in w.quests && Isolated(w, q) && IsRun(w, run) && n < |run|
    ensures InStep(w, run[n], q)
    decreases n
  {
    if n > 0 {
      RunInStep(w, run, n - 1, q);
      assert NextAt(w, run, n - 1);
      NextInStep(w, run[n - 1], run[n], q);
    }
  }

  lemma NextInStep(w: World, s: Log, s': Log, q: QuestKey)
    requires w.Ok() && q in w.quests && Isolated(w, q) && InStep(w, s, q) && Next(w, s, s')
    ensures InStep(w, s', q)
  {
    if e :| EventStep(w, s, s', e) {
      if k :| Waits(w, s, k, e) && HasAll(w, s, CurrentStep(w, s, k)) && s' == AfterStep(w, s, k) {
        AfterStepInStep(w, s, q, k);
      }
    } else if s' != s {
      var m :| AcceptStep(w, s, s', m);
      var k :| k in w.npcs[m] && Eligible(w.Requirements(), s.Statuses(), k)
               && s' == s.(quests := s.quests[k := Progress(0, Active)]);
      assert k !in s.quests;
    }
  }

  lemma ReachableInStep(w: World, s: Log, q: QuestKey)
    requires w.Ok() && q in w.quests && Isolated(w, q) && QuestLog.Reachable(w, s)
    ensures InStep(w, s, q) && Inv(w, s)
  {
    var run :| IsRun(w, run) && run[|run| - 1] == s;
    RunInStep(w, run, |run| - 1, q);
    RunKeeps(w, run, |run| - 1);
  }

  /** The items the check matches while it receives at step i: those on its list, which by
      then includes what the same step grants. */
  ghost predicate Matched(w: World, steps: seq<Step>, i: nat, r: KeyItem)
    requires i < |steps| && steps[i].TalkTo?
  {
    r in steps[i].receives && r in GrantAll(w, Outstanding(w, steps, i), steps[i].grants)
  }

  /** Where a validated quest stands, a matched item is in the player's hands exactly when
      the step does not grant it as well: the server asks for every item before it hands
      out any, the check counts the other way round. */
  lemma MatchedIsHeld(w: World, s: Log, q: QuestKey, somewhere: set<KeyItem>, r: KeyItem)
    requires w.Ok() && q in w.quests && Isolated(w, q) && QuestLog.Reachable(w, s)
    requires Balanced(w, w.quests[q].steps, somewhere)
    requires OnStep(w, s, q) && CurrentStep(w, s, q).TalkTo?
    requires Matched(w, w.quests[q].steps, s.quests[q].index, r)
    ensures r in s.keyInventory <==> r !in CurrentStep(w, s, q).grants
  {
    var steps, i := w.quests[q].steps, s.quests[q].index;
    ReachableInStep(w, s, q);
    OutstandingElems(w, steps, i);
    OutstandingOwn(w, steps, i);
    var listed := Outstanding(w, steps, i);
    GrantAllElems(w, listed, steps[i].grants);
    assert r in Elems(GrantAll(w, listed, steps[i].grants));
    assert StepFine(w, steps, i, somewhere);
    if r in steps[i].grants {
      var j :| 0 <= j < |steps[i].grants| && steps[i].grants[j] == r;
      GrantAllElems(w, listed, steps[i].grants[..j]);
      assert r !in Elems(GrantAll(w, listed, steps[i].grants[..j]));
      assert r in GrantedBy(w, steps);
    }
  }

  /** After a validated quest nothing its steps granted is left. */
  lemma NothingLeftOver(w: World, s: Log, q: QuestKey, somewhere: set<KeyItem>)
    requires w.Ok() && q in w.quests && Isolated(w, q) && QuestLog.Reachable(w, s)
    requires Balanced(w, w.quests[q].steps, somewhere)
    requires q in s.quests && s.quests[q].status == Completed
    ensures s.keyInventory !! GrantedBy(w, w.quests[q].steps)
  {
    ReachableInStep(w, s, q);
    var own := GrantedBy(w, w.quests[q].steps);
    assert s.keyInventory * own == {};
    assert forall g :: g in s.keyInventory ==> g !in own || g in s.keyInventory * own;
  }

  /** A step asks for an item of its own quest that is not outstanding when it is reached. */
  ghost predicate AsksTooEarly(w: World, steps: seq<Step>, i: nat)
    requires i < |steps|
  {
    steps[i].TalkTo? && exists r :: r in steps[i].receives && r in GrantedBy(w, steps) && r !in Outstanding(w, steps, i)
  }

  lemma TooEarlyBlocks(w: World, s: Log, q: QuestKey)
    requires q in w.quests && InStep(w, s, q) && OnStep(w, s, q)
    requires AsksTooEarly(w, w.quests[q].steps, s.quests[q].index)
    ensures !HasAll(w, s, CurrentStep(w, s, q))
  {
    var steps, i := w.quests[q].steps, s.quests[q].index;
    var r :| r in steps[i].receives && r in GrantedBy(w, steps) && r !in Outstanding(w, steps, i);
    assert r !in s.keyInventory * GrantedBy(w, steps);
  }

  ghost predicate NotPast(s: Log, q: QuestKey, i: nat) {
    q in s.quests ==> s.quests[q].index <= i && s.quests[q].status == Active
  }

  lemma StuckStep(w: World, s: Log, q: QuestKey, k: QuestKey, i: nat)
    requires q in w.quests && InStep(w, s, q) && NotPast(s, q, i)
    requires i < |w.quests[q].steps| && AsksTooEarly(w, w.quests[q].steps, i)
    requires OnStep(w, s, k) && HasAll(w, s, CurrentStep(w, s, k))
    ensures NotPast(AfterStep(w, s, k), q, i)
  {
    if k == q && s.quests[q].index == i {
      TooEarlyBlocks(w, s, q);
    }
  }

  /** A quest whose i-th step asks too early is never finished, whatever the player does. */
  lemma {:induction false} StuckForever(w: World, run: seq<Log>, n: nat, q: QuestKey, i: nat)
    requires w.Ok() && q in w.quests && Isolated(w, q) && IsRun(w, run) && n < |run|
    requires i < |w.quests[q].steps| && AsksTooEarly(w, w.quests[q].steps, i)
    ensures NotPast(run[n], q, i)
    decreases n
  {
    if n > 0 {
      StuckForever(w, run, n - 1, q, i);
      RunInStep(w, run, n - 1, q);
      assert NextAt(w, run, n - 1);
      NextNotPast(w, run[n - 1], run[n], q, i);
    }
  }

  lemma NextNotPast(w: World, s: Log, s': Log, q: QuestKey, i: nat)
    requires q in w.quests && InStep(w, s, q) && NotPast(s, q, i) && Next(w, s, s')
    requires i < |w.quests[q].steps| && AsksTooEarly(w, w.quests[q].steps, i)
    ensures NotPast(s', q, i)
  {
    if e :| EventStep(w, s, s', e) {
      if k :| Waits(w, s, k, e) && HasAll(w, s, CurrentStep(w, s, k)) && s' == AfterStep(w, s, k) {
        StuckStep(w, s, q, k, i);
      }
    } else if s' != s {
      var m :| AcceptStep(w, s, s', m);
      var k :| k in w.npcs[m] && Eligible(w.Requirements(), s.Statuses(), k)
               && s' == s.(quests := s.quests[k := Progress(0, Active)]);
    }
  }

  /** The exact condition, readable off the quest alone: a step that asks for items of its
      own quest can be passed when it is reached if and only if it does not ask too early. */
  lemma NeverBlocks(w: World, s: Log, q: QuestKey)
    requires w.Ok() && q in w.quests && Isolated(w, q) && QuestLog.Reachable(w, s)
    requires OnStep(w, s, q) && CurrentStep(w, s, q).TalkTo?
    requires forall r :: r in CurrentStep(w, s, q).receives ==> r in GrantedBy(w, w.quests[q].steps)
    ensures HasAll(w, s, CurrentStep(w, s, q)) <==> !AsksTooEarly(w, w.quests[q].steps, s.quests[q].index)
  {
    var steps, i := w.quests[q].steps, s.quests[q].index;
    ReachableInStep(w, s, q);
    OutstandingOwn(w, steps, i);
    forall r | r in steps[i].receives
      ensures r in w.boosts && (r in s.keyInventory <==> r in Outstanding(w, steps, i))
    {
      assert r in GrantedBy(w, steps);
      assert r in s.keyInventory <==> r in Elems(Outstanding(w, steps, i));
    }
  }

  /** A quest of one step that hands out an item and asks for it. */
  ghost predicate Swap(w: World, q: QuestKey, npc: NpcKey, item: KeyItem) {
    && q in w.quests && w.quests[q].steps == [TalkTo(npc, [item], [item], false)] && w.quests[q].requirement == ""
    && item in w.boosts && npc in w.npcs && q in w.npcs[npc]
  }

  lemma SwapIsBalanced(w: World, q: QuestKey, npc: NpcKey, item: KeyItem, somewhere: set<KeyItem>)
    requires Swap(w, q, npc, item)
    ensures Balanced(w, w.quests[q].steps, somewhere) && AsksTooEarly(w, w.quests[q].steps, 0)
  {
    var steps := w.quests[q].steps;
    var step := steps[0];
    assert step.grants[..0] == [] && step.receives[..0] == [];
    assert GrantAll(w, [], []) == [] && GrantAll(w, [], [item]) == [item];
    assert ReceiveAll(w, [item], []) == [item] && Without([item], item) == [];
    assert Outstanding(w, steps, 0) == [];
    assert Outstanding(w, steps, 1) == ReceiveAll(w, [item], [item]) == [];
    assert item in steps[0].receives && item in steps[0].grants;
  }

  lemma SwapIsHeld(w: World, q: QuestKey, npc: NpcKey, item: KeyItem) returns (s: Log)
    requires Swap(w, q, npc, item)
    ensures QuestLog.Reachable(w, s) && q in s.quests
  {
    s := FRESH.(quests := FRESH.quests[q := Progress(0, Active)]);
    assert Eligible(w.Requirements(), FRESH.Statuses(), q);
    assert AcceptStep(w, FRESH, s, npc);
    var run := [FRESH, s];
    assert NextAt(w, run, 0);
    assert IsRun(w, run) && run[|run| - 1] == s;
  }

  /** In every world such a quest passes the key-item check, can be accepted, and can never be
      completed: the check puts the grant before the receipt, the game asks first. */
  lemma ValidatedButStuck(w: World, q: QuestKey, npc: NpcKey, item: KeyItem, somewhere: set<KeyItem>)
    requires w.Ok() && Swap(w, q, npc, item) && Isolated(w, q)
    ensures Balanced(w, w.quests[q].steps, somewhere)
    ensures exists s :: QuestLog.Reachable(w, s) && q in s.quests
    ensures forall s :: QuestLog.Reachable(w, s) && q in s.quests ==> s.quests[q].status == Active
  {
    SwapIsBalanced(w, q, npc, item, somewhere);
    var held := SwapIsHeld(w, q, npc, item);
    forall s | QuestLog.Reachable(w, s) && q in s.quests ensures s.quests[q].status == Active {
      var run :| IsRun(w, run) && run[|run| - 1] == s;
      StuckForever(w, run, |run| - 1, q, 0);
    }
  }
}
