/** Where the world's items are while sessions take, drop, move and disconnect, one
    critical section at a time. Every item exists once (section 8.1 of RFC 42TAP). */
module ItemFlow {

  type Name = string
  type ZoneId = string
  type ItemId = string

  /** base names the zone each placed item was loaded into. */
  datatype World = World(zones: set<ZoneId>, base: map<ItemId, ZoneId>, obtainable: set<ItemId>, start: ZoneId) {
    ghost predicate Ok() {
      start in zones && forall i :: i in base ==> base[i] in zones
    }
  }

  datatype PC =
    | Idle
    | TakeZone(item: ItemId, zone: ZoneId)     // current zone read
    | DropCheck(item: ItemId, zone: ZoneId)    // current zone read
    | DropRemove(item: ItemId, zone: ZoneId)   // seen in the inventory
    | DropPlace(item: ItemId, zone: ZoneId)    // out of the inventory, in no zone yet
    | CleanZone                                // disconnecting
    | CleanReturn(rest: set<ItemId>)           // items of other zones still to be returned
    | CleanOffline

  datatype Session = Session(loc: ZoneId, inventory: set<ItemId>, pc: PC)

  datatype State = State(players: map<Name, Session>, zoneItems: map<ZoneId, set<ItemId>>)

  datatype Act =
    | Connect(p: Name)
    | Take(p: Name, i: ItemId)
    | Drop(p: Name, i: ItemId)
    | Move(p: Name, z: ZoneId)
    | Disconnect(p: Name)
    | Run(p: Name)
    | Return(p: Name, i: ItemId)

  function Set(s: State, p: Name, q: Session): State {
    s.(players := s.players[p := q])
  }

  function Put(s: State, z: ZoneId, items: set<ItemId>): State {
    if z in s.zoneItems then s.(zoneItems := s.zoneItems[z := s.zoneItems[z] + items]) else s
  }

  /** The next critical section of a command that has begun. */
  function RunStep(w: World, s: State, p: Name): State
    requires p in s.players
  {
    var me := s.players[p];
    match me.pc
    case TakeZone(i, z) =>
      if z in s.zoneItems && i in s.zoneItems[z] && i in w.obtainable
      then Set(s, p, me.(inventory := me.inventory + {i}, pc := Idle)).(zoneItems := s.zoneItems[z := s.zoneItems[z] - {i}])
      else Set(s, p, me.(pc := Idle))
    case DropCheck(i, z) => Set(s, p, me.(pc := if i in me.inventory then DropRemove(i, z) else Idle))
    case DropRemove(i, z) => Set(s, p, me.(inventory := me.inventory - {i}, pc := DropPlace(i, z)))
    case DropPlace(i, z) => Put(Set(s, p, me.(pc := Idle)), z, {i})
    case CleanZone =>
      var here := set i | i in me.inventory && i in w.base && w.base[i] == me.loc;
      Put(Set(s, p, me.(pc := CleanReturn(me.inventory - here))), me.loc, here)
    case CleanReturn(rest) => if rest == {} then Set(s, p, me.(pc := CleanOffline)) else s
    case CleanOffline => s.(players := s.players - {p})
    case Idle => s
  }

  ghost predicate Step(w: World, s: State, s': State, a: Act) {
    match a
    case Connect(p) => p !in s.players && s' == Set(s, p, Session(w.start, {}, Idle))
    case Take(p, i) =>
      p in s.players && s.players[p].pc == Idle && s' == Set(s, p, s.players[p].(pc := TakeZone(i, s.players[p].loc)))
    case Drop(p, i) =>
      p in s.players && s.players[p].pc == Idle && s' == Set(s, p, s.players[p].(pc := DropCheck(i, s.players[p].loc)))
    case Move(p, z) =>
      p in s.players && s.players[p].pc == Idle && z in w.zones && s' == Set(s, p, s.players[p].(loc := z))
    case Disconnect(p) =>
      p in s.players && s.players[p].pc == Idle && s' == Set(s, p, s.players[p].(pc := CleanZone))
    case Run(p) => p in s.players && s' == RunStep(w, s, p)
    case Return(p, i) =>
      && p in s.players && s.players[p].pc.CleanReturn? && i in s.players[p].pc.rest && i in w.base
      && s' == Put(Set(s, p, s.players[p].(pc := CleanReturn(s.players[p].pc.rest - {i}))), w.base[i], {i})
  }

  ghost predicate Next(w: World, s: State, s': State) {
    exists a :: Step(w, s, s', a)
  }

  function Init(w: World): State {
    State(map[], map z | z in w.zones :: (set i | i in w.base && w.base[i] == z))
  }

  // ---- Conservation ----

  /** An inventory counts while its session lives; what a drop or a disconnect has taken
      out of it and not yet put down is in that player's hands. */
  datatype Place = InZone(zone: ZoneId) | Carried(p: Name) | InHand(p: Name)

  predicate Dead(pc: PC) {
    pc.CleanReturn? || pc.CleanOffline?
  }

  predicate Holds(s: State, l: Place, i: ItemId) {
    match l
    case InZone(z) => z in s.zoneItems && i in s.zoneItems[z]
    case Carried(p) => p in s.players && !Dead(s.players[p].pc) && i in s.players[p].inventory
    case InHand(p) =>
      p in s.players && match s.players[p].pc
                        case DropPlace(j, _) => i == j
                        case CleanReturn(rest) => i in rest
                        case _ => false
  }

  ghost predicate OncePerItem(w: World, s: State) {
    && (forall i :: i in w.base ==> exists l :: Holds(s, l, i))
    && (forall i, l, m :: Holds(s, l, i) && Holds(s, m, i) ==> l == m)
    && (forall i, l :: Holds(s, l, i) ==> i in w.base && (i in w.obtainable || l == InZone(w.base[i])))
  }

  ghost predicate WellPlaced(w: World, s: State) {
    && s.zoneItems.Keys == w.zones
    && forall p :: p in s.players ==>
         && s.players[p].loc in w.zones
         && match s.players[p].pc
            case TakeZone(_, z) => z in w.zones
            case DropCheck(_, z) => z in w.zones
            case DropRemove(i, z) => z in w.zones && i in s.players[p].inventory
            case DropPlace(_, z) => z in w.zones
            case _ => true
  }

  ghost predicate Inv(w: World, s: State) {
    OncePerItem(w, s) && WellPlaced(w, s)
  }

  /** The whole effect of a step on the items: those in the map go where it says, and no
      other item moves. */
  ghost predicate Relocates(s: State, s': State, dest: map<ItemId, Place>) {
    forall l, i :: Holds(s', l, i) <==> if i in dest then l == dest[i] else Holds(s, l, i)
  }

  lemma RelocatingKeeps(w: World, s: State, s': State, dest: map<ItemId, Place>)
    requires OncePerItem(w, s) && Relocates(s, s', dest)
    requires forall i :: i in dest ==> i in w.base && (i in w.obtainable || dest[i] == InZone(w.base[i]))
    ensures OncePerItem(w, s')
  {
    forall i | i in w.base ensures exists l :: Holds(s', l, i) {
      if i in dest {
        assert Holds(s', dest[i], i);
      } else {
        var l :| Holds(s, l, i);
        assert Holds(s', l, i);
      }
    }
  }

  /** Where each step takes which items. */
  function Destination(w: World, s: State, a: Act): map<ItemId, Place> {
    match a
    case Return(p, i) => if i in w.base then map[i := InZone(w.base[i])] else map[]
    case Run(p) =>
      if p !in s.players then map[] else
      (var me := s.players[p];
       match me.pc
       case TakeZone(i, z) =>
         if z in s.zoneItems && i in s.zoneItems[z] && i in w.obtainable then map[i := Carried(p)] else map[]
       case DropRemove(i, _) => map[i := InHand(p)]
       case DropPlace(i, z) => map[i := InZone(z)]
       case CleanZone =>
         map i | i in me.inventory :: if i in w.base && w.base[i] == me.loc then InZone(me.loc) else InHand(p)
       case _ => map[])
    case _ => map[]
  }

  lemma StepRelocates(w: World, s: State, s': State, a: Act)
    requires w.Ok() && Inv(w, s) && Step(w, s, s', a)
    ensures Relocates(s, s', Destination(w, s, a))
  {
    var dest := Destination(w, s, a);
    match a {
      case Run(p) =>
        var pc := s.players[p].pc;
        if pc.TakeZone? || pc.DropPlace? || pc.DropRemove? {
          SingleMoves(w, s, s', p);
        } else if pc.CleanZone? {
          CleanMoves(w, s, s', p);
        }
      case Return(p, i) => ReturnMoves(w, s, s', p, i);
      case _ =>
    }
  }

  lemma ReturnMoves(w: World, s: State, s': State, p: Name, i: ItemId)
    requires w.Ok() && Inv(w, s) && Step(w, s, s', Return(p, i))
    ensures Relocates(s, s', Destination(w, s, Return(p, i)))
  {
    var dest := Destination(w, s, Return(p, i));
    assert Holds(s, InHand(p), i);
    forall l, j ensures Holds(s', l, j) <==> if j in dest then l == dest[j] else Holds(s, l, j) {
      if j == i && Holds(s, l, i) {
        assert l == InHand(p);
      }
    }
  }

  lemma SingleMoves(w: World, s: State, s': State, p: Name)
    requires w.Ok() && Inv(w, s) && p in s.players && s' == RunStep(w, s, p)
    requires s.players[p].pc.TakeZone? || s.players[p].pc.DropPlace? || s.players[p].pc.DropRemove?
    ensures Relocates(s, s', Destination(w, s, Run(p)))
  {
    var dest := Destination(w, s, Run(p));
    var pc := s.players[p].pc;
    var from := if pc.TakeZone? then InZone(pc.zone) else if pc.DropRemove? then Carried(p) else InHand(p);
    forall l, j ensures Holds(s', l, j) <==> if j in dest then l == dest[j] else Holds(s, l, j) {
      if j in dest && Holds(s, l, j) {
        assert Holds(s, from, j);
        assert l == from;
      }
    }
  }

  lemma CleanMoves(w: World, s: State, s': State, p: Name)
    requires w.Ok() && Inv(w, s) && p in s.players && s.players[p].pc == CleanZone && s' == RunStep(w, s, p)
    ensures Relocates(s, s', Destination(w, s, Run(p)))
  {
    var dest := Destination(w, s, Run(p));
    forall l, j ensures Holds(s', l, j) <==> if j in dest then l == dest[j] else Holds(s, l, j) {
      if j in dest && Holds(s, l, j) {
        assert Holds(s, Carried(p), j);
        assert l == Carried(p);
      }
    }
  }

  lemma DestinationsLegal(w: World, s: State, s': State, a: Act)
    requires w.Ok() && Inv(w, s) && Step(w, s, s', a)
    ensures var dest := Destination(w, s, a);
      forall i :: i in dest ==> i in w.base && (i in w.obtainable || dest[i] == InZone(w.base[i]))
  {
    var dest := Destination(w, s, a);
    forall i | i in dest ensures i in w.base && (i in w.obtainable || dest[i] == InZone(w.base[i])) {
      DestinationLegal(w, s, s', a, i);
    }
  }

  lemma StepPlaces(w: World, s: State, s': State, a: Act)
    requires w.Ok() && WellPlaced(w, s) && Step(w, s, s', a)
    ensures WellPlaced(w, s')
  {
  }

  lemma StepOnce(w: World, s: State, s': State, a: Act)
    requires w.Ok() && Inv(w, s) && Step(w, s, s', a)
    ensures OncePerItem(w, s')
  {
    StepRelocates(w, s, s', a);
    DestinationsLegal(w, s, s', a);
    RelocatingKeeps(w, s, s', Destination(w, s, a));
  }

  lemma StepKeeps(w: World, s: State, s': State, a: Act)
    requires w.Ok() && Inv(w, s) && Step(w, s, s', a)
    ensures Inv(w, s')
  {
    StepPlaces(w, s, s', a);
    StepOnce(w, s, s', a);
  }

  lemma DestinationLegal(w: World, s: State, s': State, a: Act, i: ItemId)
    requires w.Ok() && Inv(w, s) && Step(w, s, s', a) && i in Destination(w, s, a)
    ensures i in w.base && (i in w.obtainable || Destination(w, s, a)[i] == InZone(w.base[i]))
  {
    var p := a.p;
    var pc := s.players[p].pc;
    assert pc.TakeZone? ==> Holds(s, InZone(pc.zone), i);
    assert a.Run? && pc.DropPlace? ==> Holds(s, InHand(p), i);
    assert a.Run? && (pc.DropRemove? || pc.CleanZone?) ==> Holds(s, Carried(p), i);
  }

  ghost predicate IsRun(w: World, run: seq<State>) {
    |run| >= 1 && run[0] == Init(w) && forall i :: 0 <= i < |run| - 1 ==> NextAt(w, run, i)
  }

  ghost predicate NextAt(w: World, run: seq<State>, i: nat)
    requires i + 1 < |run|
  {
    Next(w, run[i], run[i + 1])
  }

  /** In every state of every run each placed item is in exactly one zone, live inventory
      or pair of hands, nothing else is anywhere, and what cannot be taken never leaves the
      zone it was loaded into. */
  lemma {:induction false} EveryItemOnce(w: World, run: seq<State>, n: nat)
    requires w.Ok() && IsRun(w, run) && n < |run|
    ensures Inv(w, run[n])
    decreases n
  {
    if n == 0 {
      forall i | i in w.base ensures exists l :: Holds(run[0], l, i) {
        assert Holds(run[0], InZone(w.base[i]), i);
      }
    } else {
      EveryItemOnce(w, run, n - 1);
      assert NextAt(w, run, n - 1);
      var a :| Step(w, run[n - 1], run[n], a);
      StepKeeps(w, run[n - 1], run[n], a);
    }
  }

  // ---- Disconnecting gives everything back ----

  /** From state a, where the cleanup is about to return the items, to state b, the session
      of p is being cleaned up. */
  ghost predicate CleaningUp(run: seq<State>, a: nat, b: nat, p: Name) {
    && a < b < |run|
    && p in run[a].players && run[a].players[p].pc == CleanZone && !(p in run[a + 1].players && run[a + 1].players[p].pc == CleanZone)
    && forall k :: a < k <= b ==> p in run[k].players && Dead(run[k].players[p].pc)
  }

  ghost predicate BackHome(w: World, run: seq<State>, a: nat, b: nat, i: ItemId)
    requires b < |run|
  {
    i in w.base && exists k :: a < k <= b && Holds(run[k], InZone(w.base[i]), i)
  }

  /** Every item the player carried is put into its own base zone before the session ends;
      until then it is nowhere but in the leaving player's hands. */
  lemma {:induction false} CarriedComesHome(w: World, run: seq<State>, a: nat, b: nat, p: Name, i: ItemId)
    requires w.Ok() && IsRun(w, run) && CleaningUp(run, a, b, p) && i in run[a].players[p].inventory
    ensures BackHome(w, run, a, b, i) || Holds(run[b], InHand(p), i)
    ensures run[b].players[p].pc == CleanOffline ==> BackHome(w, run, a, b, i)
    decreases b
  {
    if b == a + 1 {
      HomeOrInHand(w, run, a, p, i);
    } else {
      CarriedComesHome(w, run, a, b - 1, p, i);
      if BackHome(w, run, a, b - 1, i) {
        var k :| a < k <= b - 1 && Holds(run[k], InZone(w.base[i]), i);
      } else {
        HomeOrInHand(w, run, b - 1, p, i);
      }
    }
  }

  /** One step of any goroutine on an item of a session that is being cleaned up. */
  lemma HomeOrInHand(w: World, run: seq<State>, n: nat, p: Name, i: ItemId)
    requires w.Ok() && IsRun(w, run) && n + 1 < |run| && p in run[n].players
    requires
      || (run[n].players[p].pc == CleanZone && i in run[n].players[p].inventory
          && !(p in run[n + 1].players && run[n + 1].players[p].pc == CleanZone))
      || (run[n].players[p].pc.CleanReturn? && Holds(run[n], InHand(p), i))
    ensures i in w.base && (Holds(run[n + 1], InZone(w.base[i]), i) || Holds(run[n + 1], InHand(p), i))
  {
    EveryItemOnce(w, run, n);
    assert NextAt(w, run, n);
    var act :| Step(w, run[n], run[n + 1], act);
    if run[n].players[p].pc == CleanZone {
      CleanupTakesAll(w, run[n], run[n + 1], act, p, i);
    } else {
      HandsEmptyHome(w, run[n], run[n + 1], act, p, i);
    }
  }

  lemma CleanupTakesAll(w: World, s: State, s': State, act: Act, p: Name, i: ItemId)
    requires w.Ok() && Inv(w, s) && Step(w, s, s', act) && p in s.players && s.players[p].pc == CleanZone
    requires i in s.players[p].inventory && !(p in s'.players && s'.players[p].pc == CleanZone)
    ensures i in w.base && (Holds(s', InZone(w.base[i]), i) || Holds(s', InHand(p), i))
  {
    assert Holds(s, Carried(p), i);
    if act != Run(p) {
      StaysCarried(s, s', act, w, p);
    }
  }

  lemma HandsEmptyHome(w: World, s: State, s': State, act: Act, p: Name, i: ItemId)
    requires w.Ok() && Inv(w, s) && Step(w, s, s', act) && Holds(s, InHand(p), i)
    requires p in s.players && s.players[p].pc.CleanReturn?
    ensures i in w.base && (Holds(s', InZone(w.base[i]), i) || Holds(s', InHand(p), i))
  {
    if act != Return(p, i) {
      StaysInHand(s, s', act, w, p, i);
    }
  }

  lemma StaysCarried(s: State, s': State, act: Act, w: World, p: Name)
    requires Step(w, s, s', act) && act != Run(p) && p in s.players && s.players[p].pc == CleanZone
    ensures p in s'.players && s'.players[p].pc == CleanZone
  {
  }

  lemma StaysInHand(s: State, s': State, act: Act, w: World, p: Name, i: ItemId)
    requires Step(w, s, s', act) && act != Return(p, i) && Holds(s, InHand(p), i) && p in s.players && s.players[p].pc.CleanReturn?
    ensures Holds(s', InHand(p), i)
  {
  }

  ghost predicate NobodyTakes(run: seq<State>, j: nat, z: ZoneId, i: ItemId)
    requires j + 1 < |run|
  {
    forall q :: q in run[j].players && run[j].players[q].pc == TakeZone(i, z) ==>
      q in run[j + 1].players && i !in run[j + 1].players[q].inventory
  }

  /** A returned item can be taken by another player before the cleanup ends. Unless
      somebody does, it is still at home then. */
  lemma {:induction false} StaysHome(w: World, run: seq<State>, k: nat, b: nat, i: ItemId)
    requires w.Ok() && IsRun(w, run) && k <= b < |run| && i in w.base && Holds(run[k], InZone(w.base[i]), i)
    requires forall j :: k <= j < b ==> NobodyTakes(run, j, w.base[i], i)
    ensures Holds(run[b], InZone(w.base[i]), i)
    decreases b - k
  {
    if k < b {
      StaysHome(w, run, k, b - 1, i);
      EveryItemOnce(w, run, b - 1);
      assert NextAt(w, run, b - 1);
      var a :| Step(w, run[b - 1], run[b], a);
      assert NobodyTakes(run, b - 1, w.base[i], i);
      StepRelocates(w, run[b - 1], run[b], a);
      if i in Destination(w, run[b - 1], a) {
        LeavesHomeByTake(w, run[b - 1], run[b], a, i);
      } else {
        assert Holds(run[b], InZone(w.base[i]), i);
      }
    }
  }

  lemma LeavesHomeByTake(w: World, s: State, s': State, a: Act, i: ItemId)
    requires w.Ok() && Inv(w, s) && Step(w, s, s', a) && i in Destination(w, s, a)
    requires i in w.base && Holds(s, InZone(w.base[i]), i)
    ensures a.Run? && a.p in s.players && s.players[a.p].pc == TakeZone(i, w.base[i])
    ensures a.p in s'.players && i in s'.players[a.p].inventory
  {
    var p := a.p;
    var pc := s.players[p].pc;
    assert pc.TakeZone? ==> Holds(s, InZone(pc.zone), i);
    assert a.Return? || pc.DropPlace? ==> Holds(s, InHand(p), i);
    assert a.Run? && (pc.DropRemove? || pc.CleanZone?) ==> Holds(s, Carried(p), i);
  }

  // Home at the end of the cleanup, exactly.

  /** The step from state j takes the item away from its own zone. */
  ghost predicate TakenAt(w: World, run: seq<State>, j: nat, i: ItemId)
    requires j + 1 < |run| && i in w.base
  {
    Holds(run[j], InZone(w.base[i]), i) && !Holds(run[j + 1], InZone(w.base[i]), i)
  }

  ghost predicate PutBackAt(w: World, run: seq<State>, j: nat, i: ItemId)
    requires j + 1 < |run| && i in w.base
  {
    !Holds(run[j], InZone(w.base[i]), i) && Holds(run[j + 1], InZone(w.base[i]), i)
  }

  /** The step is the one of a TAKE that picks the item up in its own zone. */
  ghost predicate Picks(w: World, s: State, act: Act, i: ItemId)
    requires i in w.base
  {
    && act.Run? && act.p in s.players && s.players[act.p].pc == TakeZone(i, w.base[i])
    && i in w.obtainable && w.base[i] in s.zoneItems && i in s.zoneItems[w.base[i]]
  }

  /** The step is the one of a DROP that lays the item down in its own zone, or one of a
      cleanup: the return of the item, or of all that is carried where the player stands. */
  ghost predicate Lays(w: World, s: State, act: Act, i: ItemId)
    requires i in w.base
  {
    match act
    case Return(_, j) => i == j
    case Run(q) =>
      && q in s.players
      && (|| s.players[q].pc == DropPlace(i, w.base[i])
          || (s.players[q].pc == CleanZone && s.players[q].loc == w.base[i] && i in s.players[q].inventory))
    case _ => false
  }

  ghost predicate StepBy(w: World, run: seq<State>, j: nat, act: Act)
    requires j + 1 < |run|
  {
    Step(w, run[j], run[j + 1], act)
  }

  ghost predicate PicksUp(w: World, run: seq<State>, j: nat, i: ItemId)
    requires j + 1 < |run| && i in w.base
  {
    exists act: Act :: StepBy(w, run, j, act) && Picks(w, run[j], act, i)
  }

  ghost predicate LaysDown(w: World, run: seq<State>, j: nat, i: ItemId)
    requires j + 1 < |run| && i in w.base
  {
    exists act: Act :: StepBy(w, run, j, act) && Lays(w, run[j], act, i)
  }

  /** Whenever the item is picked up between a and b, it is laid down again before b. */
  ghost predicate MadeGood(w: World, run: seq<State>, a: nat, b: nat, i: ItemId)
    requires b < |run| && i in w.base
  {
    forall j :: a < j < b && PicksUp(w, run, j, i) ==> exists l :: j < l < b && LaysDown(w, run, l, i)
  }

  /** An item leaves its own zone by being picked up, and in no other way. */
  lemma TakenIsPickedUp(w: World, run: seq<State>, j: nat, i: ItemId)
    requires w.Ok() && IsRun(w, run) && j + 1 < |run| && i in w.base
    ensures TakenAt(w, run, j, i) <==> PicksUp(w, run, j, i)
  {
    EveryItemOnce(w, run, j);
    if TakenAt(w, run, j, i) {
      assert NextAt(w, run, j);
      var act: Act :| Step(w, run[j], run[j + 1], act);
      StepRelocates(w, run[j], run[j + 1], act);
      LeavesHomeByTake(w, run[j], run[j + 1], act, i);
      assert StepBy(w, run, j, act) && Picks(w, run[j], act, i);
    } else if PicksUp(w, run, j, i) {
      var act: Act :| StepBy(w, run, j, act) && Picks(w, run[j], act, i);
      StepRelocates(w, run[j], run[j + 1], act);
    }
  }

  lemma ComesHomeByLaying(w: World, s: State, s': State, act: Act, i: ItemId)
    requires w.Ok() && Inv(w, s) && Step(w, s, s', act) && i in w.base && !Holds(s, InZone(w.base[i]), i)
    ensures Holds(s', InZone(w.base[i]), i) <==> Lays(w, s, act, i)
  {
    StepRelocates(w, s, s', act);
  }

  lemma LaidIsAway(w: World, s: State, s': State, act: Act, i: ItemId)
    requires w.Ok() && Inv(w, s) && Step(w, s, s', act) && i in w.base && Lays(w, s, act, i)
    ensures !Holds(s, InZone(w.base[i]), i)
  {
    var p := act.p;
    var l := if act.Run? && s.players[p].pc == CleanZone then Carried(p) else InHand(p);
    assert Holds(s, l, i);
  }

  /** An item comes back to its own zone by being laid down there, and in no other way. */
  lemma PutBackIsLaidDown(w: World, run: seq<State>, j: nat, i: ItemId)
    requires w.Ok() && IsRun(w, run) && j + 1 < |run| && i in w.base
    ensures PutBackAt(w, run, j, i) <==> LaysDown(w, run, j, i)
  {
    EveryItemOnce(w, run, j);
    if PutBackAt(w, run, j, i) {
      assert NextAt(w, run, j);
      var act: Act :| Step(w, run[j], run[j + 1], act);
      ComesHomeByLaying(w, run[j], run[j + 1], act, i);
      assert StepBy(w, run, j, act) && Lays(w, run[j], act, i);
    } else if LaysDown(w, run, j, i) {
      var act: Act :| StepBy(w, run, j, act) && Lays(w, run[j], act, i);
      LaidIsAway(w, run[j], run[j + 1], act, i);
      ComesHomeByLaying(w, run[j], run[j + 1], act, i);
    }
  }

  /** A taking is a TAKE of a player standing in that zone, who then carries the item. */
  lemma TakenBySomebody(w: World, run: seq<State>, j: nat, i: ItemId) returns (q: Name)
    requires w.Ok() && IsRun(w, run) && j + 1 < |run| && i in w.base && TakenAt(w, run, j, i)
    ensures q in run[j].players && run[j].players[q].pc == TakeZone(i, w.base[i])
    ensures Holds(run[j + 1], Carried(q), i)
  {
    EveryItemOnce(w, run, j);
    assert NextAt(w, run, j);
    var act :| Step(w, run[j], run[j + 1], act);
    StepRelocates(w, run[j], run[j + 1], act);
    LeavesHomeByTake(w, run[j], run[j + 1], act, i);
    q := act.p;
  }

  /** Home once and gone later: somewhere in between it was taken, and not brought back. */
  lemma {:induction false} LastTaking(w: World, run: seq<State>, k: nat, b: nat, i: ItemId) returns (j: nat)
    requires k < b < |run| && i in w.base && Holds(run[k], InZone(w.base[i]), i) && !Holds(run[b], InZone(w.base[i]), i)
    ensures k <= j < b && TakenAt(w, run, j, i) && forall l :: j < l < b ==> !PutBackAt(w, run, l, i)
    decreases b - k
  {
    if Holds(run[b - 1], InZone(w.base[i]), i) {
      j := b - 1;
    } else {
      j := LastTaking(w, run, k, b - 1, i);
    }
  }

  /** Gone once and home later: in between it was brought back. */
  lemma {:induction false} PuttingBack(w: World, run: seq<State>, k: nat, b: nat, i: ItemId) returns (l: nat)
    requires k < b < |run| && i in w.base && !Holds(run[k], InZone(w.base[i]), i) && Holds(run[b], InZone(w.base[i]), i)
    ensures k <= l < b && PutBackAt(w, run, l, i)
    decreases b - k
  {
    if !Holds(run[b - 1], InZone(w.base[i]), i) {
      l := b - 1;
    } else {
      l := PuttingBack(w, run, k, b - 1, i);
    }
  }

  lemma HomeIsMadeGood(w: World, run: seq<State>, a: nat, b: nat, i: ItemId)
    requires w.Ok() && IsRun(w, run) && b < |run| && i in w.base && Holds(run[b], InZone(w.base[i]), i)
    ensures MadeGood(w, run, a, b, i)
  {
    forall j | a < j < b && PicksUp(w, run, j, i) ensures exists l :: j < l < b && LaysDown(w, run, l, i) {
      TakenIsPickedUp(w, run, j, i);
      var l := PuttingBack(w, run, j + 1, b, i);
      PutBackIsLaidDown(w, run, l, i);
    }
  }

  lemma MadeGoodIsHome(w: World, run: seq<State>, a: nat, b: nat, i: ItemId)
    requires w.Ok() && IsRun(w, run) && a < b < |run| && BackHome(w, run, a, b, i) && MadeGood(w, run, a, b, i)
    ensures Holds(run[b], InZone(w.base[i]), i)
  {
    var k :| a < k <= b && Holds(run[k], InZone(w.base[i]), i);
    if !Holds(run[b], InZone(w.base[i]), i) {
      var j := LastTaking(w, run, k, b, i);
      TakenIsPickedUp(w, run, j, i);
      var l :| j < l < b && LaysDown(w, run, l, i);
      PutBackIsLaidDown(w, run, l, i);
    }
  }

  /** What a player carried is in its own zone when the cleanup ends if and only if, whenever
      since the cleanup began a TAKE picked it up there, a DROP or a cleanup laid it down there
      again before the end. */
  lemma HomeAtTheEnd(w: World, run: seq<State>, a: nat, b: nat, p: Name, i: ItemId)
    requires w.Ok() && IsRun(w, run) && CleaningUp(run, a, b, p) && i in run[a].players[p].inventory
    requires run[b].players[p].pc == CleanOffline
    ensures i in w.base && (Holds(run[b], InZone(w.base[i]), i) <==> MadeGood(w, run, a, b, i))
  {
    CarriedComesHome(w, run, a, b, p, i);
    if Holds(run[b], InZone(w.base[i]), i) {
      HomeIsMadeGood(w, run, a, b, i);
    } else if MadeGood(w, run, a, b, i) {
      MadeGoodIsHome(w, run, a, b, i);
    }
  }

  lemma NotPickedUp(w: World, run: seq<State>, j: nat, i: ItemId)
    requires w.Ok() && IsRun(w, run) && j + 1 < |run| && i in w.base && NobodyTakes(run, j, w.base[i], i)
    ensures !PicksUp(w, run, j, i)
  {
    TakenIsPickedUp(w, run, j, i);
    if TakenAt(w, run, j, i) {
      var q := TakenBySomebody(w, run, j, i);
    }
  }

  /** So it is home at the end if nobody takes it in the meantime. */
  lemma HomeUnlessTaken(w: World, run: seq<State>, a: nat, b: nat, p: Name, i: ItemId)
    requires w.Ok() && IsRun(w, run) && CleaningUp(run, a, b, p) && i in run[a].players[p].inventory
    requires run[b].players[p].pc == CleanOffline
    requires i in w.base && forall j :: a < j < b ==> NobodyTakes(run, j, w.base[i], i)
    ensures Holds(run[b], InZone(w.base[i]), i)
  {
    HomeAtTheEnd(w, run, a, b, p, i);
    forall j | a < j < b ensures !PicksUp(w, run, j, i) {
      NotPickedUp(w, run, j, i);
    }
  }

  // A disconnected player's lamp, picked up by somebody else before its cleanup is over.

  lemma Extend(w: World, run: seq<State>, s': State, act: Act)
    requires IsRun(w, run) && Step(w, run[|run| - 1], s', act)
    ensures IsRun(w, run + [s'])
  {
    var longer := run + [s'];
    forall i | 0 <= i < |longer| - 1 ensures NextAt(w, longer, i) {
      if i < |run| - 1 {
        assert NextAt(w, run, i);
      }
    }
  }

  function Two(p: Session, q: Session, cave: set<ItemId>): State {
    State(map["ann" := p, "bob" := q], map["cave" := cave])
  }

  const CAVE := World({"cave"}, map["lamp" := "cave"], {"lamp"}, "cave")

  lemma LampIsCarried() returns (run: seq<State>)
    ensures |run| == 5 && IsRun(CAVE, run)
    ensures run[4] == Two(Session("cave", {"lamp"}, Idle), Session("cave", {}, Idle), {})
  {
    var nobody := Session("cave", {}, Idle);
    LampStartsInCave();
    run := [Init(CAVE)];
    run := Moves(run, Set(run[0], "bob", nobody), Connect("bob"));
    run := Moves(run, Two(nobody, nobody, {"lamp"}), Connect("ann"));
    run := Moves(run, Two(Session("cave", {}, TakeZone("lamp", "cave")), nobody, {"lamp"}), Take("ann", "lamp"));
    LampMoves();
    run := Moves(run, Two(Session("cave", {"lamp"}, Idle), nobody, {}), Run("ann"));
  }

  lemma LampStartsInCave()
    ensures Init(CAVE).zoneItems == map["cave" := {"lamp"}]
  {
    var here := set i | i in CAVE.base && CAVE.base[i] == "cave";
    forall i ensures i in here <==> i in {"lamp"} {
    }
    assert here == {"lamp"};
  }

  lemma LampMoves()
    ensures var lamp: set<ItemId> := {"lamp"}; {} + lamp == lamp && lamp - lamp == {}
  {
  }

  lemma Moves(run: seq<State>, s': State, act: Act) returns (longer: seq<State>)
    requires IsRun(CAVE, run) && Step(CAVE, run[|run| - 1], s', act)
    ensures longer == run + [s'] && IsRun(CAVE, longer)
  {
    Extend(CAVE, run, s', act);
    longer := run + [s'];
  }

  lemma LampIsLeft() returns (run: seq<State>)
    ensures |run| == 7 && IsRun(CAVE, run)
    ensures run[5] == Two(Session("cave", {"lamp"}, CleanZone), Session("cave", {}, Idle), {})
    ensures run[6] == Two(Session("cave", {"lamp"}, CleanReturn({})), Session("cave", {}, Idle), {"lamp"})
  {
    var nobody := Session("cave", {}, Idle);
    run := LampIsCarried();
    run := Moves(run, Two(Session("cave", {"lamp"}, CleanZone), nobody, {}), Disconnect("ann"));
    AnnPutsBack();
    run := Moves(run, Two(Session("cave", {"lamp"}, CleanReturn({})), nobody, {"lamp"}), Run("ann"));
  }

  lemma AnnPutsBack()
    ensures var nobody := Session("cave", {}, Idle);
      RunStep(CAVE, Two(Session("cave", {"lamp"}, CleanZone), nobody, {}), "ann")
      == Two(Session("cave", {"lamp"}, CleanReturn({})), nobody, {"lamp"})
  {
    var me, nobody := Session("cave", {"lamp"}, CleanZone), Session("cave", {}, Idle);
    var here := set i | i in me.inventory && i in CAVE.base && CAVE.base[i] == me.loc;
    forall i ensures i in here <==> i in {"lamp"} {
      assert i == "lamp" ==> i in CAVE.base && CAVE.base[i] == "cave";
    }
    assert here == {"lamp"};
    var kept := Session("cave", {"lamp"}, CleanReturn({}));
    assert me.inventory - here == {};
    assert Set(Two(me, nobody, {}), "ann", kept) == Two(kept, nobody, {});
    var none: set<ItemId> := {};
    assert none + here == {"lamp"};
    assert Two(kept, nobody, none).zoneItems["cave" := none + here] == map["cave" := here];
    assert Put(Two(kept, nobody, {}), "cave", here) == Two(kept, nobody, {"lamp"});
  }

  lemma LampIsTaken() returns (run: seq<State>)
    ensures |run| == 9 && IsRun(CAVE, run)
    ensures run[5].players.Keys == {"ann", "bob"} && run[5].players["ann"] == Session("cave", {"lamp"}, CleanZone)
    ensures forall k :: 6 <= k < 9 ==> "ann" in run[k].players && run[k].players["ann"] == Session("cave", {"lamp"}, CleanReturn({}))
    ensures run[8] == Two(Session("cave", {"lamp"}, CleanReturn({})), Session("cave", {"lamp"}, Idle), {})
  {
    var left := Session("cave", {"lamp"}, CleanReturn({}));
    run := LampIsLeft();
    run := Moves(run, Two(left, Session("cave", {}, TakeZone("lamp", "cave")), {"lamp"}), Take("bob", "lamp"));
    BobTakes();
    run := Moves(run, Two(left, Session("cave", {"lamp"}, Idle), {}), Run("bob"));
  }

  lemma BobTakes()
    ensures var left := Session("cave", {"lamp"}, CleanReturn({}));
      RunStep(CAVE, Two(left, Session("cave", {}, TakeZone("lamp", "cave")), {"lamp"}), "bob")
      == Two(left, Session("cave", {"lamp"}, Idle), {})
  {
    LampMoves();
  }

  /** What a player carried need not be at home when its cleanup ends: it can be taken in
      between. */
  lemma TakenMeanwhile() returns (run: seq<State>)
    ensures IsRun(CAVE, run) && |run| == 10 && CleaningUp(run, 5, 9, "ann") && "lamp" in run[5].players["ann"].inventory
    ensures run[9].players["ann"].pc == CleanOffline && Holds(run[9], Carried("bob"), "lamp")
  {
    run := LampIsTaken();
    run := Moves(run, Two(Session("cave", {"lamp"}, CleanOffline), Session("cave", {"lamp"}, Idle), {}), Run("ann"));
  }

  // ---- The commands, run without interruption ----

  /** One step of the machine, by one player's own goroutine. */
  ghost predicate SoloStep(w: World, s: State, s': State, p: Name) {
    exists a: Act :: a.p == p && Step(w, s, s', a)
  }

  ghost predicate SoloRun(w: World, run: seq<State>, p: Name) {
    run != [] && forall k :: 0 <= k < |run| - 1 ==> SoloStep(w, run[k], run[k + 1], p)
  }

  /** The machine gets from one state to the other by steps of one player alone. */
  ghost predicate Solely(w: World, s: State, s': State, p: Name) {
    exists run :: SoloRun(w, run, p) && run[0] == s && run[|run| - 1] == s'
  }

  lemma SolelyStays(w: World, s: State, p: Name)
    ensures Solely(w, s, s, p)
  {
    assert SoloRun(w, [s], p) && [s][0] == s && [s][|[s]| - 1] == s;
  }

  lemma SolelyThen(w: World, s: State, s': State, s'': State, a: Act)
    requires Solely(w, s, s', a.p) && Step(w, s', s'', a)
    ensures Solely(w, s, s'', a.p)
  {
    var run :| SoloRun(w, run, a.p) && run[0] == s && run[|run| - 1] == s';
    var longer := run + [s''];
    forall k | 0 <= k < |longer| - 1 ensures SoloStep(w, longer[k], longer[k + 1], a.p) {
      assert k < |run| - 1 ==> SoloStep(w, run[k], run[k + 1], a.p);
    }
    assert longer[0] == s && longer[|longer| - 1] == s'';
  }

  /** So a whole command keeps every item in exactly one place. */
  lemma SolelyKeeps(w: World, s: State, s': State, p: Name)
    requires w.Ok() && Inv(w, s) && Solely(w, s, s', p)
    ensures Inv(w, s')
  {
    var run :| SoloRun(w, run, p) && run[0] == s && run[|run| - 1] == s';
    SoloRunKeeps(w, run, p, |run| - 1);
  }

  lemma {:induction false} SoloRunKeeps(w: World, run: seq<State>, p: Name, n: nat)
    requires w.Ok() && SoloRun(w, run, p) && Inv(w, run[0]) && n < |run|
    ensures Inv(w, run[n])
    decreases n
  {
    if n > 0 {
      SoloRunKeeps(w, run, p, n - 1);
      assert SoloStep(w, run[n - 1], run[n - 1 + 1], p);
      var a: Act :| a.p == p && Step(w, run[n - 1], run[n], a);
      StepKeeps(w, run[n - 1], run[n], a);
    }
  }

  /** A session's next critical sections, one after the other. */
  function RunSteps(w: World, s: State, p: Name, n: nat): State
    decreases n
  {
    if n == 0 || p !in s.players then s else RunSteps(w, RunStep(w, s, p), p, n - 1)
  }

  lemma {:induction false} RunStepsSolely(w: World, s: State, s': State, p: Name, n: nat)
    requires Solely(w, s, s', p)
    ensures Solely(w, s, RunSteps(w, s', p, n), p)
    decreases n
  {
    if n > 0 && p in s'.players {
      SolelyThen(w, s, s', RunStep(w, s', p), Run(p));
      RunStepsSolely(w, s, RunStep(w, s', p), p, n - 1);
    }
  }

  lemma BeginsSolely(w: World, s: State, s': State, a: Act, n: nat)
    requires Step(w, s, s', a)
    ensures Solely(w, s, RunSteps(w, s', a.p, n), a.p)
  {
    SolelyStays(w, s, a.p);
    SolelyThen(w, s, s, s', a);
    RunStepsSolely(w, s, s', a.p, n);
  }

  function Holding(s: State, p: Name, pc: PC): State
    requires p in s.players
  {
    Set(s, p, s.players[p].(pc := pc))
  }

  datatype TakeResult = Taken | NotFound | NotObtainable

  class Server {
    const w: World
    var players: map<Name, Session>
    var zoneItems: map<ZoneId, set<ItemId>>

    constructor (w: World)
      ensures this.w == w && Now() == Init(w)
    {
      this.w := w;
      players := map[];
      zoneItems := map z | z in w.zones :: (set i | i in w.base && w.base[i] == z);
    }

    function Now(): State
      reads this
    {
      State(players, zoneItems)
    }

    /** Between two commands. */
    ghost predicate Free(p: Name)
      reads this
    {
      p in players && players[p].pc == Idle && players[p].loc in zoneItems
    }

    method ItemTake(p: Name, i: ItemId) returns (r: TakeResult)
      requires Free(p)
      modifies this
      ensures r == (if i !in old(zoneItems[players[p].loc]) then NotFound else if i !in w.obtainable then NotObtainable else Taken)
      ensures r == Taken ==>
                && players == old(players)[p := old(players[p]).(inventory := old(players[p].inventory) + {i})]
                && zoneItems == old(zoneItems)[old(players[p].loc) := old(zoneItems[players[p].loc]) - {i}]
      ensures r != Taken ==> Now() == old(Now())
      ensures Now() == RunSteps(w, Holding(old(Now()), p, TakeZone(i, old(players[p].loc))), p, 1)
      ensures Solely(w, old(Now()), Now(), p)
    {
      var me := players[p];
      BeginsSolely(w, Now(), Holding(Now(), p, TakeZone(i, me.loc)), Take(p, i), 1);
      OneRun(w, Holding(Now(), p, TakeZone(i, me.loc)), p);
      assert players[p := me] == players;
      if i !in zoneItems[me.loc] {
        return NotFound;
      }
      if i !in w.obtainable {
        return NotObtainable;
      }
      zoneItems := zoneItems[me.loc := zoneItems[me.loc] - {i}];
      players := players[p := me.(inventory := me.inventory + {i})];
      return Taken;
    }

    method ItemDrop(p: Name, i: ItemId) returns (ok: bool)
      requires Free(p)
      modifies this
      ensures ok <==> i in old(players[p].inventory)
      ensures ok ==>
                && players == old(players)[p := old(players[p]).(inventory := old(players[p].inventory) - {i})]
                && zoneItems == old(zoneItems)[old(players[p].loc) := old(zoneItems[players[p].loc]) + {i}]
      ensures !ok ==> Now() == old(Now())
      ensures Now() == RunSteps(w, Holding(old(Now()), p, DropCheck(i, old(players[p].loc))), p, 3)
      ensures Solely(w, old(Now()), Now(), p)
    {
      var me := players[p];
      BeginsSolely(w, Now(), Holding(Now(), p, DropCheck(i, me.loc)), Drop(p, i), 3);
      DropRuns(w, Now(), p, i);
      if i !in me.inventory {
        return false;
      }
      players := players[p := me.(inventory := me.inventory - {i})];
      zoneItems := zoneItems[me.loc := zoneItems[me.loc] + {i}];
      return true;
    }

    /** Cleaning up after a session: what belongs to the current zone goes back at once, the
        rest one by one afterwards, in any order, and then the session is gone. */
    method CleanupItems(p: Name)
      requires w.Ok() && Free(p) && zoneItems.Keys == w.zones && players[p].inventory <= w.base.Keys
      modifies this
      ensures players == old(players) - {p} && zoneItems.Keys == w.zones
      ensures forall z :: z in w.zones ==> zoneItems[z] == old(zoneItems)[z] + From(old(players[p].inventory), z)
      ensures Solely(w, old(Now()), Now(), p)
    {
      ghost var start, me := Now(), players[p];
      ReturnLocal(p);
      ghost var mid := zoneItems;
      ReturnCross(p, start);
      forall z | z in w.zones ensures zoneItems[z] == start.zoneItems[z] + From(me.inventory, z) {
        assert zoneItems[z] == mid[z] + From(me.inventory - From(me.inventory, me.loc), z);
      }
      ghost var s := Now();
      players := players - {p};
      LastRuns(w, s, p);
      RunStepsSolely(w, start, s, p, 2);
    }

    ghost function From(items: set<ItemId>, z: ZoneId): set<ItemId> {
      set i | i in items && i in w.base && w.base[i] == z
    }

    /** The critical section of the current zone. */
    method ReturnLocal(p: Name)
      requires Free(p) && players[p].inventory <= w.base.Keys
      modifies this
      ensures var me := old(players[p]); var here := From(me.inventory, me.loc);
        && players == old(players)[p := me.(pc := CleanReturn(me.inventory - here))]
        && zoneItems == old(zoneItems)[me.loc := old(zoneItems)[me.loc] + here]
      ensures Solely(w, old(Now()), Now(), p)
    {
      var me := players[p];
      var rest, cross := me.inventory, {};
      var here := zoneItems[me.loc];
      BeginsSolely(w, Now(), Holding(Now(), p, CleanZone), Disconnect(p), 1);
      OneRun(w, Holding(Now(), p, CleanZone), p);
      while rest != {}
        invariant rest <= me.inventory
        invariant cross == me.inventory - rest - From(me.inventory, me.loc)
        invariant here == zoneItems[me.loc] + From(me.inventory - rest, me.loc)
        invariant players == old(players) && zoneItems == old(zoneItems)
      {
        var i :| i in rest;
        rest := rest - {i};
        if w.base[i] == me.loc {
          here := here + {i};
        } else {
          cross := cross + {i};
        }
      }
      assert me.inventory - {} == me.inventory;
      zoneItems := zoneItems[me.loc := here];
      players := players[p := me.(pc := CleanReturn(cross))];
    }

    /** The zones once these items are back in them. */
    ghost function Returned(zones: map<ZoneId, set<ItemId>>, items: set<ItemId>): map<ZoneId, set<ItemId>> {
      map z | z in zones :: zones[z] + From(items, z)
    }

    lemma ReturnedOneMore(zones: map<ZoneId, set<ItemId>>, items: set<ItemId>, i: ItemId)
      requires i in w.base && w.base[i] in zones
      ensures var t := Returned(zones, items); t[w.base[i] := t[w.base[i]] + {i}] == Returned(zones, items + {i})
    {
      var t, u := Returned(zones, items), Returned(zones, items + {i});
      var after := t[w.base[i] := t[w.base[i]] + {i}];
      forall z | z in zones ensures after[z] == u[z] {
        FromAdds(items, i, z);
      }
      assert after.Keys == u.Keys;
    }

    lemma ReturnedNone(zones: map<ZoneId, set<ItemId>>)
      ensures Returned(zones, {}) == zones
    {
      forall z | z in zones ensures Returned(zones, {})[z] == zones[z] {
        assert From({}, z) == {};
      }
    }

    /** The items of other zones, one critical section each. */
    method ReturnCross(p: Name, ghost start: State)
      requires w.Ok() && zoneItems.Keys == w.zones && p in players && players[p].pc.CleanReturn? && players[p].pc.rest <= w.base.Keys
      requires Solely(w, start, Now(), p)
      modifies this
      ensures players == old(players)[p := old(players[p]).(pc := CleanReturn({}))]
      ensures zoneItems == Returned(old(zoneItems), old(players[p].pc.rest))
      ensures Solely(w, start, Now(), p)
    {
      var me := players[p];
      var rest := me.pc.rest;
      ghost var items, done, before, zones := rest, {}, players, zoneItems;
      assert players[p := me] == players;
      ReturnedNone(zones);
      while rest != {}
        invariant done + rest == items && Midway(p, start, before, zones, rest, done)
        decreases rest
      {
        var i :| i in rest;
        ReturnOne(p, i, start, before, zones, done);
        rest, done := rest - {i}, done + {i};
      }
      assert done == items;
    }

    /** Some items are returned and the rest are still to be. */
    ghost predicate Midway(p: Name, start: State, before: map<Name, Session>, zones: map<ZoneId, set<ItemId>>,
                           rest: set<ItemId>, done: set<ItemId>)
      reads this
    {
      && p in before && players == before[p := before[p].(pc := CleanReturn(rest))]
      && zoneItems == Returned(zones, done) && zones.Keys == w.zones && rest <= w.base.Keys
      && Solely(w, start, Now(), p)
    }

    method ReturnOne(p: Name, i: ItemId, ghost start: State, ghost before: map<Name, Session>,
                     ghost zones: map<ZoneId, set<ItemId>>, ghost done: set<ItemId>)
      requires w.Ok() && p in players && players[p].pc.CleanReturn? && i in players[p].pc.rest
      requires Midway(p, start, before, zones, players[p].pc.rest, done)
      modifies this
      ensures Midway(p, start, before, zones, old(players[p].pc.rest) - {i}, done + {i})
    {
      ghost var s := Now();
      var me := players[p];
      ReturnedOneMore(zones, done, i);
      zoneItems := zoneItems[w.base[i] := zoneItems[w.base[i]] + {i}];
      players := players[p := me.(pc := CleanReturn(me.pc.rest - {i}))];
      SolelyThen(w, start, s, Now(), Return(p, i));
    }

    lemma FromAdds(items: set<ItemId>, i: ItemId, z: ZoneId)
      requires i in w.base
      ensures From(items + {i}, z) == From(items, z) + (if w.base[i] == z then {i} else {})
    {
    }
  }

  lemma OneRun(w: World, s: State, p: Name)
    requires p in s.players
    ensures RunSteps(w, s, p, 1) == RunStep(w, s, p)
  {
  }

  /** The three critical sections of a drop, with nobody in between. */
  lemma DropRuns(w: World, s: State, p: Name, i: ItemId)
    requires p in s.players && s.players[p].pc == Idle && s.players[p].loc in s.zoneItems
    ensures var me := s.players[p];
      RunSteps(w, Holding(s, p, DropCheck(i, me.loc)), p, 3) ==
      if i !in me.inventory then s
      else State(s.players[p := me.(inventory := me.inventory - {i})], s.zoneItems[me.loc := s.zoneItems[me.loc] + {i}])
  {
    var me := s.players[p];
    var s0 := Holding(s, p, DropCheck(i, me.loc));
    var s1 := RunStep(w, s0, p);
    var s2 := RunStep(w, s1, p);
    var s3 := RunStep(w, s2, p);
    assert RunSteps(w, s3, p, 0) == s3 && RunSteps(w, s2, p, 1) == s3 && RunSteps(w, s1, p, 2) == s3;
    if i !in me.inventory {
      assert s.players[p := me] == s.players;
      assert s1 == s && s2 == s && s3 == s;
    } else {
      var left := me.(inventory := me.inventory - {i});
      assert s2 == Set(s, p, left.(pc := DropPlace(i, me.loc)));
      assert s3.players == s.players[p := left];
    }
  }

  /** With nothing left to return the session ends. */
  lemma LastRuns(w: World, s: State, p: Name)
    requires p in s.players && s.players[p].pc == CleanReturn({})
    ensures RunSteps(w, s, p, 2) == State(s.players - {p}, s.zoneItems)
  {
    var s1 := RunStep(w, s, p);
    assert s1 == Holding(s, p, CleanOffline);
    assert RunSteps(w, s1, p, 1) == RunStep(w, s1, p);
    assert s1.players - {p} == s.players - {p};
  }
}
