/** One player's quests: accepting, advancing by TALK, MOVE and ATTACK, and completing.
    Only the player's own connection changes them, so a whole command is one step. */
module QuestLog {
  import opened Wrappers
  import opened SeqSets
  import opened QuestChain

  type NpcKey = string
  type ZoneKey = string
  type KeyItem = string

  datatype Step =
    | TalkTo(target: NpcKey, grants: seq<KeyItem>, receives: seq<KeyItem>, saysWhenMissing: bool)
    | EnterArea(area: ZoneKey)
    | Battle(target: NpcKey)

  /** keyItem is "" when the reward has none. */
  datatype Reward = Reward(keyItem: KeyItem, money: int)

  datatype Quest = Quest(steps: seq<Step>, reward: Option<Reward>, requirement: QuestKey)

  /** boosts maps every loaded key item to its skill boost. */
  datatype World = World(quests: map<QuestKey, Quest>, boosts: map<KeyItem, int>, npcs: map<NpcKey, set<QuestKey>>) {
    function Requirements(): Requirements {
      map k | k in quests :: quests[k].requirement
    }

    /** Every quest has a step (the server indexes the first one unchecked) and NPCs offer
        loaded quests only. */
    ghost predicate Ok() {
      && (forall k :: k in quests ==> |quests[k].steps| >= 1)
      && (forall n :: n in npcs ==> npcs[n] <= quests.Keys)
    }
  }

  datatype Progress = Progress(index: nat, status: QuestStatus)

  datatype Log = Log(quests: map<QuestKey, Progress>, keyInventory: set<KeyItem>, gold: int, battleSkill: int) {
    function Statuses(): map<QuestKey, QuestStatus> {
      map k | k in quests :: quests[k].status
    }
  }

  const FRESH := Log(map[], {}, 0, 7)

  datatype Event = Talk(npc: NpcKey) | Enter(area: ZoneKey) | Win(npc: NpcKey)

  predicate Matches(step: Step, e: Event) {
    match (step, e)
    case (TalkTo(t, _, _, _), Talk(n)) => t == n
    case (EnterArea(a), Enter(z)) => a == z
    case (Battle(t), Win(n)) => t == n
    case _ => false
  }

  /** The current step of an active quest, which must be in range. */
  predicate OnStep(w: World, s: Log, k: QuestKey) {
    && k in s.quests && k in w.quests
    && s.quests[k].status == Active && s.quests[k].index < |w.quests[k].steps|
  }

  function CurrentStep(w: World, s: Log, k: QuestKey): Step
    requires OnStep(w, s, k)
  {
    w.quests[k].steps[s.quests[k].index]
  }

  predicate Waits(w: World, s: Log, k: QuestKey, e: Event) {
    OnStep(w, s, k) && Matches(CurrentStep(w, s, k), e)
  }

  predicate HasAll(w: World, s: Log, step: Step) {
    step.TalkTo? ==> forall r :: r in step.receives ==> r in w.boosts && r in s.keyInventory
  }

  function Known(w: World, names: seq<KeyItem>): set<KeyItem> {
    set n | n in names && n in w.boosts
  }

  function AfterItems(w: World, inventory: set<KeyItem>, step: Step): set<KeyItem> {
    if step.TalkTo? then inventory + Known(w, step.grants) - Known(w, step.receives) else inventory
  }

  function Advanced(w: World, s: Log, k: QuestKey): Log
    requires OnStep(w, s, k)
  {
    s.(quests := s.quests[k := Progress(s.quests[k].index + 1, Active)],
       keyInventory := AfterItems(w, s.keyInventory, CurrentStep(w, s, k)))
  }

  function MoneyOf(w: World, k: QuestKey): int {
    if k in w.quests && w.quests[k].reward.Some? && w.quests[k].reward.value.money > 0
    then w.quests[k].reward.value.money else 0
  }

  function RewardItem(w: World, k: QuestKey): set<KeyItem> {
    if k in w.quests && w.quests[k].reward.Some? && w.quests[k].reward.value.keyItem != ""
       && w.quests[k].reward.value.keyItem in w.boosts
    then {w.quests[k].reward.value.keyItem} else {}
  }

  function BoostOf(w: World, k: QuestKey): int {
    if RewardItem(w, k) != {} && w.boosts[w.quests[k].reward.value.keyItem] > 0
    then w.boosts[w.quests[k].reward.value.keyItem] else 0
  }

  function Rewarded(w: World, s: Log, k: QuestKey): Log
    requires k in s.quests
  {
    Log(s.quests[k := s.quests[k].(status := Completed)],
        s.keyInventory + RewardItem(w, k),
        s.gold + MoneyOf(w, k),
        s.battleSkill + BoostOf(w, k))
  }

  /** The state after a whole command that advances k. */
  function AfterStep(w: World, s: Log, k: QuestKey): Log
    requires OnStep(w, s, k)
  {
    var t := Advanced(w, s, k);
    if t.quests[k].index >= |w.quests[k].steps| then Rewarded(w, t, k) else t
  }

  /** An event advances one quest waiting for it; it changes nothing only when none can
      go on, or when a quest that lacks items answers first. */
  ghost predicate EventStep(w: World, s: Log, s': Log, e: Event) {
    || (exists k :: Waits(w, s, k, e) && HasAll(w, s, CurrentStep(w, s, k)) && s' == AfterStep(w, s, k))
    || (s' == s && (
          || (forall k :: Waits(w, s, k, e) ==> !HasAll(w, s, CurrentStep(w, s, k)))
          || (exists k :: Waits(w, s, k, e) && !HasAll(w, s, CurrentStep(w, s, k))
                          && CurrentStep(w, s, k).saysWhenMissing)))
  }

  ghost predicate AcceptStep(w: World, s: Log, s': Log, npc: NpcKey) {
    npc in w.npcs &&
    if exists k :: k in w.npcs[npc] && Eligible(w.Requirements(), s.Statuses(), k)
    then exists k :: k in w.npcs[npc] && Eligible(w.Requirements(), s.Statuses(), k)
                     && s' == s.(quests := s.quests[k := Progress(0, Active)])
    else s' == s
  }

  ghost predicate Next(w: World, s: Log, s': Log) {
    (exists e :: EventStep(w, s, s', e)) || (exists n :: AcceptStep(w, s, s', n))
  }

  // ---- The commands ----

  class Player {
    var quests: map<QuestKey, Progress>
    var keyInventory: set<KeyItem>
    var gold: int
    var battleSkill: int

    constructor ()
      ensures State() == FRESH
    {
      quests, keyInventory, gold, battleSkill := map[], {}, 0, 7;
    }

    function State(): Log
      reads this
    {
      Log(quests, keyInventory, gold, battleSkill)
    }

    ghost predicate InRange(w: World)
      reads this
    {
      forall k :: k in quests ==> k in w.quests && (quests[k].status == Active ==> quests[k].index < |w.quests[k].steps|)
    }

    method AcceptQuest(w: World, npc: NpcKey) returns (ok: bool)
      requires w.Ok() && npc in w.npcs
      modifies this
      ensures AcceptStep(w, old(State()), State(), npc)
      ensures ok <==> exists k :: k in w.npcs[npc] && Eligible(w.Requirements(), old(State()).Statuses(), k)
    {
      var found, key := GetNPCQuest(w.Requirements(), w.npcs[npc], State().Statuses());
      if found {
        quests := quests[key := Progress(0, Active)];
      }
      return found;
    }

    method CompleteQuest(w: World, k: QuestKey)
      requires k in quests && k in w.quests
      modifies this
      ensures State() == Rewarded(w, old(State()), k)
    {
      var reward := w.quests[k].reward;
      if reward == None || (reward.value.keyItem == "" && reward.value.money == 0) {
      } else {
        if reward.value.keyItem != "" {
          if reward.value.keyItem in w.boosts {
            keyInventory := keyInventory + {reward.value.keyItem};
            if w.boosts[reward.value.keyItem] > 0 {
              battleSkill := battleSkill + w.boosts[reward.value.keyItem];
            }
          }
        }
        if reward.value.money > 0 {
          gold := gold + reward.value.money;
        }
      }
      quests := quests[k := quests[k].(status := Completed)];
    }

    /** Grants first, then takes: both loops of the quest step. */
    method ExchangeItems(w: World, grants: seq<KeyItem>, receives: seq<KeyItem>)
      modifies this`keyInventory
      ensures keyInventory == old(keyInventory) + Known(w, grants) - Known(w, receives)
    {
      for i := 0 to |grants|
        invariant keyInventory == old(keyInventory) + Known(w, grants[..i])
      {
        assert grants[..i + 1] == grants[..i] + [grants[i]];
        if grants[i] in w.boosts {
          keyInventory := keyInventory + {grants[i]};
        }
      }
      assert grants[..|grants|] == grants;
      for i := 0 to |receives|
        invariant keyInventory == old(keyInventory) + Known(w, grants) - Known(w, receives[..i])
      {
        assert receives[..i + 1] == receives[..i] + [receives[i]];
        if receives[i] in w.boosts {
          keyInventory := keyInventory - {receives[i]};
        }
      }
      assert receives[..|receives|] == receives;
    }

    /** TALK to an NPC that does not heal: the player's quests are tried in any order. */
    method HandleTalk(w: World, npc: NpcKey)
      requires InRange(w)
      modifies this
      ensures EventStep(w, old(State()), State(), Talk(npc))
    {
      var rest := quests.Keys;
      while rest != {}
        invariant rest <= quests.Keys && State() == old(State())
        invariant forall k :: k in quests && k !in rest && Waits(w, State(), k, Talk(npc)) ==>
                              !HasAll(w, State(), CurrentStep(w, State(), k))
      {
        var k :| k in rest;
        rest := rest - {k};
        if quests[k].status != Active {
          continue;
        }
        var step := w.quests[k].steps[quests[k].index];
        if step.TalkTo? && step.target == npc {
          assert Waits(w, State(), k, Talk(npc));
          if exists r :: r in step.receives && (r !in w.boosts || r !in keyInventory) {
            if step.saysWhenMissing {
              return;
            }
            continue;
          }
          quests := quests[k := Progress(quests[k].index + 1, Active)];
          ExchangeItems(w, step.grants, step.receives);
          assert State() == Advanced(w, old(State()), k);
          if quests[k].index >= |w.quests[k].steps| {
            CompleteQuest(w, k);
          }
          assert State() == AfterStep(w, old(State()), k);
          return;
        }
      }
    }

    /** The quest part of MOVE, after the player has entered the zone. */
    method EnterZone(w: World, zone: ZoneKey)
      requires InRange(w)
      modifies this
      ensures EventStep(w, old(State()), State(), Enter(zone))
    {
      var rest := quests.Keys;
      while rest != {}
        invariant rest <= quests.Keys && State() == old(State())
        invariant forall k :: k in quests && k !in rest ==> !Waits(w, State(), k, Enter(zone))
      {
        var k :| k in rest;
        rest := rest - {k};
        if quests[k].status != Active {
          continue;
        }
        var step := w.quests[k].steps[quests[k].index];
        if step.EnterArea? && zone == step.area {
          assert Waits(w, State(), k, Enter(zone));
          AdvancePlain(w, k);
          return;
        }
      }
    }

    /** The quest part of ATTACK, after the player has felled the NPC. */
    method WinFight(w: World, npc: NpcKey)
      requires InRange(w)
      modifies this
      ensures EventStep(w, old(State()), State(), Win(npc))
    {
      var rest := quests.Keys;
      while rest != {}
        invariant rest <= quests.Keys && State() == old(State())
        invariant forall k :: k in quests && k !in rest ==> !Waits(w, State(), k, Win(npc))
      {
        var k :| k in rest;
        rest := rest - {k};
        if quests[k].status != Active {
          continue;
        }
        var step := w.quests[k].steps[quests[k].index];
        if step.Battle? && step.target == npc {
          assert Waits(w, State(), k, Win(npc));
          AdvancePlain(w, k);
          return;
        }
      }
    }

    /** The shared tail of the two: one step on, and the reward if it was the last. */
    method AdvancePlain(w: World, k: QuestKey)
      requires OnStep(w, State(), k) && !CurrentStep(w, State(), k).TalkTo?
      modifies this
      ensures State() == AfterStep(w, old(State()), k)
    {
      quests := quests[k := Progress(quests[k].index + 1, Active)];
      assert State() == Advanced(w, old(State()), k);
      if quests[k].index >= |w.quests[k].steps| {
        CompleteQuest(w, k);
      }
    }
  }

  // ---- What every run keeps ----

  ghost function Total(f: QuestKey -> int, ks: set<QuestKey>): int {
    if ks == {} then 0 else var k :| k in ks; f(k) + Total(f, ks - {k})
  }

  lemma {:induction false} TotalAdds(f: QuestKey -> int, ks: set<QuestKey>, k: QuestKey)
    requires k !in ks
    ensures Total(f, ks + {k}) == f(k) + Total(f, ks)
    decreases |ks|
  {
    var all := ks + {k};
    var c :| c in all && Total(f, all) == f(c) + Total(f, all - {c});
    if c == k {
      assert all - {c} == ks;
    } else {
      assert all - {c} == (ks - {c}) + {k};
      TotalAdds(f, ks - {c}, k);
      assert ks == (ks - {c}) + {c};
      TotalAdds(f, ks - {c}, c);
    }
  }

  ghost function CompletedIn(s: Log): set<QuestKey> {
    set k | k in s.quests && s.quests[k].status == Completed
  }

  ghost predicate PaidOnce(w: World, s: Log) {
    && s.gold == Total(k => MoneyOf(w, k), CompletedIn(s))
    && s.battleSkill == 7 + Total(k => BoostOf(w, k), CompletedIn(s))
  }

  ghost predicate IndexOk(w: World, s: Log) {
    forall k :: k in s.quests ==>
      && k in w.quests
      && (s.quests[k].status == Active ==> s.quests[k].index < |w.quests[k].steps|)
      && (s.quests[k].status == Completed ==> s.quests[k].index == |w.quests[k].steps|)
  }

  ghost predicate Inv(w: World, s: Log) {
    IndexOk(w, s) && PaidOnce(w, s) && PrerequisitesDone(w.Requirements(), s.Statuses())
  }

  /** No quest is forgotten or set back, and a completed one is final. */
  ghost predicate OnlyForward(s: Log, s': Log) {
    forall k :: k in s.quests ==>
      && k in s'.quests && s.quests[k].index <= s'.quests[k].index
      && (s.quests[k].status == Completed ==> s'.quests[k] == s.quests[k])
  }

  lemma AfterStepPays(w: World, s: Log, k: QuestKey)
    requires PaidOnce(w, s) && OnStep(w, s, k)
    ensures PaidOnce(w, AfterStep(w, s, k))
  {
    var s' := AfterStep(w, s, k);
    if s'.quests[k].status == Completed {
      assert CompletedIn(s') == CompletedIn(s) + {k};
      TotalAdds(k => MoneyOf(w, k), CompletedIn(s), k);
      TotalAdds(k => BoostOf(w, k), CompletedIn(s), k);
    } else {
      assert CompletedIn(s') == CompletedIn(s);
    }
  }

  lemma AfterStepForward(w: World, s: Log, k: QuestKey)
    requires IndexOk(w, s) && OnStep(w, s, k)
    ensures IndexOk(w, AfterStep(w, s, k)) && OnlyForward(s, AfterStep(w, s, k))
  {
  }

  lemma AfterStepKeeps(w: World, s: Log, k: QuestKey)
    requires Inv(w, s) && OnStep(w, s, k)
    ensures Inv(w, AfterStep(w, s, k)) && OnlyForward(s, AfterStep(w, s, k))
  {
    AfterStepPays(w, s, k);
    AfterStepForward(w, s, k);
    var s' := AfterStep(w, s, k);
    assert forall c :: c in s'.Statuses() <==> c in s.Statuses();
  }

  lemma EventKeeps(w: World, s: Log, s': Log, e: Event)
    requires Inv(w, s) && EventStep(w, s, s', e)
    ensures Inv(w, s') && OnlyForward(s, s')
  {
    if k :| Waits(w, s, k, e) && HasAll(w, s, CurrentStep(w, s, k)) && s' == AfterStep(w, s, k) {
      AfterStepKeeps(w, s, k);
    }
  }

  lemma TakingKeeps(w: World, s: Log, k: QuestKey)
    requires w.Ok() && Inv(w, s) && Eligible(w.Requirements(), s.Statuses(), k)
    ensures Inv(w, s.(quests := s.quests[k := Progress(0, Active)]))
    ensures OnlyForward(s, s.(quests := s.quests[k := Progress(0, Active)]))
  {
    var s' := s.(quests := s.quests[k := Progress(0, Active)]);
    assert CompletedIn(s') == CompletedIn(s);
    assert forall c :: c in s.quests ==> c != k && s'.quests[c] == s.quests[c];
    var q, held := w.Requirements(), s'.Statuses();
    forall c | c in held ensures c in q && (q[c] == "" || (q[c] in held && held[q[c]] == Completed)) {
      if c != k {
        assert c in s.Statuses();
      }
    }
  }

  lemma NextKeeps(w: World, s: Log, s': Log)
    requires w.Ok() && Inv(w, s) && Next(w, s, s')
    ensures Inv(w, s') && OnlyForward(s, s')
  {
    if e :| EventStep(w, s, s', e) {
      EventKeeps(w, s, s', e);
    } else if s' != s {
      var n :| AcceptStep(w, s, s', n);
      var k :| k in w.npcs[n] && Eligible(w.Requirements(), s.Statuses(), k)
               && s' == s.(quests := s.quests[k := Progress(0, Active)]);
      TakingKeeps(w, s, k);
    }
  }

  ghost predicate IsRun(w: World, run: seq<Log>) {
    |run| >= 1 && run[0] == FRESH && forall i :: 0 <= i < |run| - 1 ==> NextAt(w, run, i)
  }

  ghost predicate NextAt(w: World, run: seq<Log>, i: nat)
    requires i + 1 < |run|
  {
    Next(w, run[i], run[i + 1])
  }

  ghost predicate Reachable(w: World, s: Log) {
    exists run :: IsRun(w, run) && run[|run| - 1] == s
  }

  /** In every run: rewards match the completed quests exactly, indices stay in range, and
      every held quest has its prerequisite completed. */
  lemma {:induction false} RunKeeps(w: World, run: seq<Log>, n: nat)
    requires w.Ok() && IsRun(w, run) && n < |run|
    ensures Inv(w, run[n])
    decreases n
  {
    if n == 0 {
      assert CompletedIn(run[0]) == {};
    } else {
      RunKeeps(w, run, n - 1);
      assert NextAt(w, run, n - 1);
      NextKeeps(w, run[n - 1], run[n]);
    }
  }

  lemma {:induction false} RunOnlyForward(w: World, run: seq<Log>, i: nat, j: nat)
    requires w.Ok() && IsRun(w, run) && i <= j < |run|
    ensures OnlyForward(run[i], run[j])
    decreases j - i
  {
    if i < j {
      RunOnlyForward(w, run, i, j - 1);
      RunKeeps(w, run, j - 1);
      assert NextAt(w, run, j - 1);
      NextKeeps(w, run[j - 1], run[j]);
      ForwardOn(run[i], run[j - 1], run[j]);
    }
  }

  lemma ForwardOn(r: Log, s: Log, t: Log)
    requires OnlyForward(r, s) && OnlyForward(s, t)
    ensures OnlyForward(r, t)
  {
  }

  /** Progress: once the load-time check has passed and every quest has a giver, a player
      with nothing active and something left gets a quest from some NPC. */
  lemma AlwaysAnotherQuest(w: World, s: Log, missing: QuestKey) returns (npc: NpcKey, k: QuestKey)
    requires w.Ok() && Reachable(w, s) && "" !in w.quests
    requires forall c :: c in w.quests ==> Ends(w.Requirements(), c)
    requires forall c :: c in w.quests ==> exists n :: n in w.npcs && c in w.npcs[n]
    requires forall h :: h in s.quests ==> s.quests[h].status == Completed
    requires missing in w.quests && missing !in s.quests
    ensures npc in w.npcs && k in w.npcs[npc] && Eligible(w.Requirements(), s.Statuses(), k)
    ensures forall s' :: AcceptStep(w, s, s', npc) ==> |s'.quests| == |s.quests| + 1
  {
    k := SomeQuestIsOffered(w.Requirements(), s.Statuses(), missing);
    npc :| npc in w.npcs && k in w.npcs[npc];
    forall s' | AcceptStep(w, s, s', npc) ensures |s'.quests| == |s.quests| + 1 {
      AcceptingAdds(w, s, s', npc);
    }
  }

  lemma AcceptingAdds(w: World, s: Log, s': Log, npc: NpcKey)
    requires AcceptStep(w, s, s', npc) && s' != s
    ensures |s'.quests| == |s.quests| + 1
  {
    var c :| c in w.npcs[npc] && Eligible(w.Requirements(), s.Statuses(), c)
             && s' == s.(quests := s.quests[c := Progress(0, Active)]);
    assert c !in s.quests && s'.quests.Keys == s.quests.Keys + {c};
    assert |s'.quests.Keys| == |s.quests.Keys| + 1;
  }
}
