/** What a player holds and why, in every run; and that every quest can be finished. */
module QuestRewards {
  import opened Wrappers
  import opened SeqSets
  import opened QuestChain
  import opened QuestLog
  import opened KeyItemBalance

  // ---- Where the key items come from ----

  /** The reward of the quest names this loaded item. */
  predicate Promises(w: World, k: QuestKey, g: KeyItem) {
    k in w.quests && w.quests[k].reward.Some? && w.quests[k].reward.value.keyItem == g && g != "" && g in w.boosts
  }

  predicate Done(s: Log, k: QuestKey) {
    k in s.quests && s.quests[k].status == Completed
  }

  ghost predicate NeverAsked(w: World, g: KeyItem) {
    forall k, i :: k in w.quests && 0 <= i < |w.quests[k].steps| && w.quests[k].steps[i].TalkTo? ==> g !in w.quests[k].steps[i].receives
  }

  /** A step that the player has passed grants the item. */
  predicate GrantedAt(w: World, s: Log, k: QuestKey, i: nat, g: KeyItem) {
    && k in w.quests && k in s.quests && i < s.quests[k].index && i < |w.quests[k].steps|
    && w.quests[k].steps[i].TalkTo? && g in w.quests[k].steps[i].grants && g in w.boosts
  }

  ghost predicate RewardsHeld(w: World, s: Log) {
    forall k, g :: Done(s, k) && Promises(w, k, g) && NeverAsked(w, g) ==> g in s.keyInventory
  }

  ghost predicate Sourced(w: World, s: Log, g: KeyItem) {
    (exists k :: Done(s, k) && Promises(w, k, g)) || (exists k, i :: GrantedAt(w, s, k, i, g))
  }

  ghost predicate AllSourced(w: World, s: Log) {
    forall g :: g in s.keyInventory ==> Sourced(w, s, g)
  }

  lemma AfterStepHolds(w: World, s: Log, k: QuestKey)
    requires RewardsHeld(w, s) && OnStep(w, s, k)
    ensures RewardsHeld(w, AfterStep(w, s, k))
  {
    var s' := AfterStep(w, s, k);
    forall c, g | Done(s', c) && Promises(w, c, g) && NeverAsked(w, g) ensures g in s'.keyInventory {
      if c != k {
        assert Done(s, c);
      }
    }
  }

  lemma StaysSourced(w: World, s: Log, s': Log, g: KeyItem)
    requires Sourced(w, s, g) && OnlyForward(s, s')
    ensures Sourced(w, s', g)
  {
    if k :| Done(s, k) && Promises(w, k, g) {
      assert Done(s', k);
    } else {
      var k, i :| GrantedAt(w, s, k, i, g);
      assert GrantedAt(w, s', k, i, g);
    }
  }

  lemma AfterStepSourced(w: World, s: Log, k: QuestKey)
    requires Inv(w, s) && AllSourced(w, s) && OnStep(w, s, k)
    ensures AllSourced(w, AfterStep(w, s, k))
  {
    var s' := AfterStep(w, s, k);
    AfterStepForward(w, s, k);
    forall g | g in s'.keyInventory ensures Sourced(w, s', g) {
      if g in s.keyInventory {
        StaysSourced(w, s, s', g);
      } else if g in RewardItem(w, k) {
        assert Promises(w, k, g) && (Done(s', k) || GrantedAt(w, s', k, s.quests[k].index, g));
      } else {
        assert GrantedAt(w, s', k, s.quests[k].index, g);
      }
    }
  }

  ghost predicate Items(w: World, s: Log) {
    RewardsHeld(w, s) && AllSourced(w, s)
  }

  lemma NextItems(w: World, s: Log, s': Log)
    requires w.Ok() && Inv(w, s) && Items(w, s) && Next(w, s, s')
    ensures Items(w, s')
  {
    if e :| EventStep(w, s, s', e) {
      if k :| Waits(w, s, k, e) && HasAll(w, s, CurrentStep(w, s, k)) && s' == AfterStep(w, s, k) {
        AfterStepHolds(w, s, k);
        AfterStepSourced(w, s, k);
      }
    } else if s' != s {
      NextKeeps(w, s, s');
      AcceptItems(w, s, s');
    }
  }

  lemma AcceptItems(w: World, s: Log, s': Log)
    requires Items(w, s) && OnlyForward(s, s') && s'.keyInventory == s.keyInventory && forall k :: Done(s', k) ==> Done(s, k)
    ensures Items(w, s')
  {
    forall g | g in s'.keyInventory ensures Sourced(w, s', g) {
      StaysSourced(w, s, s', g);
    }
  }

  lemma {:induction false} RunItems(w: World, run: seq<Log>, n: nat)
    requires w.Ok() && IsRun(w, run) && n < |run|
    ensures Items(w, run[n])
  {
    if n > 0 {
      RunItems(w, run, n - 1);
      RunKeeps(w, run, n - 1);
      assert NextAt(w, run, n - 1);
      NextItems(w, run[n - 1], run[n]);
    }
  }

  /** In every run the reward item of every completed quest is in the player's hands, unless some
      step of some quest asks for it. */
  lemma RewardArrives(w: World, s: Log, k: QuestKey, g: KeyItem)
    requires w.Ok() && QuestLog.Reachable(w, s) && Done(s, k) && Promises(w, k, g) && NeverAsked(w, g)
    ensures g in s.keyInventory
  {
    var run :| IsRun(w, run) && run[|run| - 1] == s;
    RunItems(w, run, |run| - 1);
  }

  /** And whatever is in them is the reward of a completed quest or granted by a step passed. */
  lemma HeldIsEarned(w: World, s: Log, g: KeyItem)
    requires w.Ok() && QuestLog.Reachable(w, s) && g in s.keyInventory
    ensures (exists k :: Done(s, k) && Promises(w, k, g)) || (exists k, i :: GrantedAt(w, s, k, i, g))
  {
    var run :| IsRun(w, run) && run[|run| - 1] == s;
    RunItems(w, run, |run| - 1);
  }

  // ---- What one event does ----

  /** The quest stands at the step that this event is for, and the player has what it asks. */
  ghost predicate Ready(w: World, s: Log, k: QuestKey, e: Event) {
    && k in w.quests && k in s.quests && s.quests[k].status == Active && s.quests[k].index < |w.quests[k].steps|
    && match w.quests[k].steps[s.quests[k].index]
       case TalkTo(npc, _, receives, _) => e == Talk(npc) && forall r :: r in receives ==> r in s.keyInventory && r in w.boosts
       case EnterArea(area) => e == Enter(area)
       case Battle(npc) => e == Win(npc)
  }

  ghost predicate Grants(w: World, step: Step, g: KeyItem) {
    step.TalkTo? && g in step.grants && g in w.boosts
  }

  predicate Asks(step: Step, g: KeyItem) {
    step.TalkTo? && g in step.receives
  }

  /** The gold that a quest pays: never less than nothing. */
  function Pay(w: World, k: QuestKey): int {
    match if k in w.quests then w.quests[k].reward else None
    case None => 0
    case Some(reward) => if reward.money < 0 then 0 else reward.money
  }

  /** And what its key item adds to the battle skill. */
  function Boost(w: World, k: QuestKey): int {
    match if k in w.quests then w.quests[k].reward else None
    case None => 0
    case Some(reward) =>
      if reward.keyItem == "" || reward.keyItem !in w.boosts || w.boosts[reward.keyItem] < 0 then 0 else w.boosts[reward.keyItem]
  }

  /** The quest goes one step on; behind the last it is completed and pays, once. */
  ghost predicate Advances(w: World, s: Log, s': Log, k: QuestKey)
    requires k in w.quests && k in s.quests && s.quests[k].index < |w.quests[k].steps|
  {
    var i, step, last := s.quests[k].index, w.quests[k].steps[s.quests[k].index], s.quests[k].index + 1 == |w.quests[k].steps|;
    && s'.quests == s.quests[k := Progress(i + 1, if last then Completed else Active)]
    && (forall g :: g in w.boosts ==>
         (g in s'.keyInventory <==> (last && Promises(w, k, g)) || ((g in s.keyInventory || Grants(w, step, g)) && !Asks(step, g))))
    && s'.gold == s.gold + (if last then Pay(w, k) else 0)
    && s'.battleSkill == s.battleSkill + (if last then Boost(w, k) else 0)
  }

  /** An event moves one quest that is ready for it, all the way the source says, or nothing; and
      nothing only if none is ready or one that lacks items answers first. */
  lemma EventMoves(w: World, s: Log, s': Log, e: Event)
    requires EventStep(w, s, s', e)
    ensures (exists k :: Ready(w, s, k, e) && Advances(w, s, s', k)) || s' == s
    ensures s' == s && (exists k :: Ready(w, s, k, e)) ==> e.Talk? && exists k :: Lacks(w, s, k, e.npc)
  {
    if k :| Waits(w, s, k, e) && HasAll(w, s, CurrentStep(w, s, k)) && s' == AfterStep(w, s, k) {
      assert Ready(w, s, k, e);
      AdvancesOne(w, s, k);
    } else if c :| Ready(w, s, c, e) {
      var k := SomeoneLacks(w, s, s', e, c);
    }
  }

  lemma SomeoneLacks(w: World, s: Log, s': Log, e: Event, c: QuestKey) returns (k: QuestKey)
    requires EventStep(w, s, s', e) && s' == s && Ready(w, s, c, e)
    requires forall k :: Waits(w, s, k, e) && HasAll(w, s, CurrentStep(w, s, k)) ==> s' != AfterStep(w, s, k)
    ensures e.Talk? && Lacks(w, s, k, e.npc)
  {
    assert Waits(w, s, c, e) && HasAll(w, s, CurrentStep(w, s, c));
    k :| Waits(w, s, k, e) && !HasAll(w, s, CurrentStep(w, s, k)) && CurrentStep(w, s, k).saysWhenMissing;
  }

  lemma AdvancesOne(w: World, s: Log, k: QuestKey)
    requires OnStep(w, s, k)
    ensures Advances(w, s, AfterStep(w, s, k), k) && AfterStep(w, s, k) != s
  {
    assert AfterStep(w, s, k).quests[k].index == s.quests[k].index + 1;
  }

  /** A quest at this NPC asks for something the player has not got, and its NPC says so. */
  ghost predicate Lacks(w: World, s: Log, k: QuestKey, npc: NpcKey) {
    && k in w.quests && k in s.quests && s.quests[k].status == Active && s.quests[k].index < |w.quests[k].steps|
    && var step := w.quests[k].steps[s.quests[k].index];
       step.TalkTo? && step.target == npc && step.saysWhenMissing
       && exists r :: r in step.receives && (r !in s.keyInventory || r !in w.boosts)
  }

  // ---- Everything can be finished ----

  /** No quest asks for more than its own steps have granted by then. */
  ghost predicate Feasible(w: World, q: QuestKey)
    requires q in w.quests
  {
    Isolated(w, q) && forall i :: 0 <= i < |w.quests[q].steps| ==> FeasibleAt(w, w.quests[q].steps, i)
  }

  ghost predicate FeasibleAt(w: World, steps: seq<Step>, i: nat)
    requires i < |steps|
  {
    steps[i].TalkTo? ==> !AsksTooEarly(w, steps, i) && forall r :: r in steps[i].receives ==> r in GrantedBy(w, steps)
  }

  function EventFor(step: Step): Event {
    match step
    case TalkTo(npc, _, _, _) => Talk(npc)
    case EnterArea(area) => Enter(area)
    case Battle(npc) => Win(npc)
  }

  lemma Extends(w: World, s: Log, s': Log)
    requires QuestLog.Reachable(w, s) && Next(w, s, s')
    ensures QuestLog.Reachable(w, s')
  {
    var run :| IsRun(w, run) && run[|run| - 1] == s;
    var longer := run + [s'];
    forall i | 0 <= i < |longer| - 1 ensures NextAt(w, longer, i) {
      assert i < |run| - 1 ==> NextAt(w, run, i);
    }
    assert longer[|longer| - 1] == s';
  }

  lemma StepCanBeTaken(w: World, s: Log, q: QuestKey) returns (t: Log)
    requires w.Ok() && q in w.quests && Feasible(w, q) && QuestLog.Reachable(w, s) && OnStep(w, s, q)
    ensures QuestLog.Reachable(w, t) && t == AfterStep(w, s, q)
  {
    var step := w.quests[q].steps[s.quests[q].index];
    assert FeasibleAt(w, w.quests[q].steps, s.quests[q].index);
    if step.TalkTo? {
      NeverBlocks(w, s, q);
    }
    t := AfterStep(w, s, q);
    assert Waits(w, s, q, EventFor(step));
    assert EventStep(w, s, t, EventFor(step));
    Extends(w, s, t);
  }

  /** A quest that is held can be taken to its end, and the others stay where they are. */
  lemma {:induction false} OneCanBeFinished(w: World, s: Log, q: QuestKey) returns (t: Log)
    requires w.Ok() && q in w.quests && Feasible(w, q) && QuestLog.Reachable(w, s) && q in s.quests
    ensures QuestLog.Reachable(w, t) && Done(t, q) && t.quests == s.quests[q := t.quests[q]]
    decreases |w.quests[q].steps| - s.quests[q].index
  {
    ReachableInStep(w, s, q);
    if s.quests[q].status == Completed {
      t := s;
    } else {
      var u := StepCanBeTaken(w, s, q);
      t := OneCanBeFinished(w, u, q);
    }
  }

  /** The prerequisite check has passed, every quest has a giver and none asks too much. */
  ghost predicate Playable(w: World) {
    && w.Ok() && "" !in w.quests
    && (forall q :: q in w.quests ==> Ends(w.Requirements(), q))
    && (forall q :: q in w.quests ==> Feasible(w, q))
    && (forall q :: q in w.quests ==> exists n :: n in w.npcs && q in w.npcs[n])
  }

  ghost predicate AllHeldDone(s: Log) {
    forall q :: q in s.quests ==> Done(s, q)
  }

  lemma OneMore(w: World, s: Log, missing: QuestKey) returns (t: Log, k: QuestKey)
    requires Playable(w) && QuestLog.Reachable(w, s) && AllHeldDone(s) && missing in w.quests && missing !in s.quests
    ensures k in w.quests && k !in s.quests
    ensures QuestLog.Reachable(w, t) && t.quests == s.quests[k := Progress(0, Active)]
  {
    var npc;
    npc, k := AlwaysAnotherQuest(w, s, missing);
    t := s.(quests := s.quests[k := Progress(0, Active)]);
    assert AcceptStep(w, s, t, npc);
    Extends(w, s, t);
  }

  lemma OneMoreDone(w: World, s: Log, missing: QuestKey) returns (t: Log, k: QuestKey)
    requires Playable(w) && QuestLog.Reachable(w, s) && AllHeldDone(s) && missing in w.quests && missing !in s.quests
    ensures k in w.quests && k !in s.quests
    ensures QuestLog.Reachable(w, t) && t.quests.Keys == s.quests.Keys + {k} && AllHeldDone(t)
  {
    var u;
    u, k := OneMore(w, s, missing);
    t := OneCanBeFinished(w, u, k);
    assert u.quests.Keys == s.quests.Keys + {k};
    forall q | q in t.quests ensures Done(t, q) {
      assert q != k ==> Done(s, q);
    }
  }

  /** A player with nothing under way can finish all the quests. */
  lemma {:induction false} AllCanBeFinished(w: World, s: Log) returns (t: Log)
    requires Playable(w) && QuestLog.Reachable(w, s) && AllHeldDone(s)
    ensures QuestLog.Reachable(w, t) && AllHeldDone(t) && w.quests.Keys <= t.quests.Keys
    decreases w.quests.Keys - s.quests.Keys
  {
    if missing :| missing in w.quests && missing !in s.quests {
      var u, k := OneMoreDone(w, s, missing);
      assert k in w.quests.Keys - s.quests.Keys && k !in w.quests.Keys - u.quests.Keys;
      t := AllCanBeFinished(w, u);
    } else {
      t := s;
    }
  }

  lemma AllDone(w: World, s: Log)
    requires w.Ok() && QuestLog.Reachable(w, s) && AllHeldDone(s) && w.quests.Keys <= s.quests.Keys
    ensures forall q :: q in w.quests ==> Done(s, q)
    ensures CompletedIn(s) == w.quests.Keys && PaidOnce(w, s)
  {
    var run :| IsRun(w, run) && run[|run| - 1] == s;
    RunKeeps(w, run, |run| - 1);
    forall q | q in w.quests ensures Done(s, q) {
      assert q in s.quests.Keys;
    }
  }

  lemma SameGold(w: World, ks: set<QuestKey>)
    ensures Total(k => MoneyOf(w, k), ks) == Total(k => Pay(w, k), ks)
  {
    SameTotal(k => MoneyOf(w, k), k => Pay(w, k), ks);
  }

  lemma SameSkill(w: World, ks: set<QuestKey>)
    ensures Total(k => BoostOf(w, k), ks) == Total(k => Boost(w, k), ks)
  {
    SameTotal(k => BoostOf(w, k), k => Boost(w, k), ks);
  }

  /** The game can be won: a run completes every quest, and earns all the gold and skill there is. */
  lemma TheGameCanBeWon(w: World) returns (t: Log)
    requires Playable(w)
    ensures QuestLog.Reachable(w, t) && (forall q :: q in w.quests ==> Done(t, q))
    ensures t.gold == Total(k => Pay(w, k), w.quests.Keys) && t.battleSkill == 7 + Total(k => Boost(w, k), w.quests.Keys)
  {
    assert IsRun(w, [FRESH]) && [FRESH][|[FRESH]| - 1] == FRESH;
    t := AllCanBeFinished(w, FRESH);
    AllDone(w, t);
    SameGold(w, w.quests.Keys);
    SameSkill(w, w.quests.Keys);
  }

  lemma {:induction false} SameTotal(f: QuestKey -> int, g: QuestKey -> int, ks: set<QuestKey>)
    requires forall k :: f(k) == g(k)
    ensures Total(f, ks) == Total(g, ks)
    decreases |ks|
  {
    if k :| k in ks {
      assert ks == (ks - {k}) + {k};
      SameTotal(f, g, ks - {k});
      TotalAdds(f, ks - {k}, k);
      TotalAdds(g, ks - {k}, k);
    }
  }
}
