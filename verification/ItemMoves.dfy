/** What TAKE and DROP do with an item, from one command boundary to the next, whatever the other
    sessions do in between: in every run. */
module ItemMoves {
  import opened ItemFlow

  predicate Busy(s: State, p: Name) {
    p in s.players && s.players[p].pc != Idle
  }

  /** From state a to state b the session runs the command that this action begins, and nothing
      else. */
  ghost predicate Serves(w: World, run: seq<State>, a: nat, b: nat, act: Act) {
    && Under(w, run, a, b, act) && act.p in run[b].players && run[b].players[act.p].pc == Idle
  }

  ghost predicate Under(w: World, run: seq<State>, a: nat, b: nat, act: Act) {
    && a < b < |run| && Step(w, run[a], run[a + 1], act) && act.p in run[a].players && run[a].players[act.p].pc == Idle
    && forall k :: a < k < b ==> Busy(run[k], act.p)
  }

  /** Nobody touches another's session. */
  lemma OwnStep(w: World, s: State, s': State, p: Name)
    requires Next(w, s, s') && Busy(s, p)
    ensures || (p in s'.players && s'.players[p] == s.players[p])
            || Step(w, s, s', Run(p))
            || exists i :: Step(w, s, s', Return(p, i))
  {
    var a: Act :| Step(w, s, s', a);
    if a.p == p && a.Return? {
      assert Step(w, s, s', Return(p, a.i));
    }
  }

  // ---- TAKE ----

  ghost predicate TakeOn(s: State, t: State, p: Name, i: ItemId) {
    && p in s.players && p in t.players
    && t.players[p] == s.players[p].(pc := TakeZone(i, s.players[p].loc))
  }

  lemma {:induction false} TakeAlong(w: World, run: seq<State>, a: nat, k: nat, p: Name, i: ItemId)
    requires IsRun(w, run) && Under(w, run, a, k + 1, Take(p, i)) && a < k
    ensures TakeOn(run[a], run[k], p, i)
    decreases k
  {
    if k > a + 1 {
      TakeAlong(w, run, a, k - 1, p, i);
      assert NextAt(w, run, k - 1);
      OwnStep(w, run[k - 1], run[k], p);
      assert Busy(run[k], p);
    }
  }

  /** No item is elsewhere than before, but perhaps one. */
  ghost predicate OnlyMoves(s: State, t: State, i: ItemId, l: Place) {
    forall m, j :: Holds(t, m, j) <==> if j == i then m == l else Holds(s, m, j)
  }

  ghost predicate NothingMoves(s: State, t: State) {
    forall m, j :: Holds(t, m, j) <==> Holds(s, m, j)
  }

  /** The critical section of a TAKE, in any zone. */
  lemma TakeSection(w: World, s: State, p: Name, i: ItemId, z: ZoneId)
    requires w.Ok() && Inv(w, s) && p in s.players && s.players[p].pc == TakeZone(i, z)
    ensures var t := RunStep(w, s, p);
      && p in t.players && t.players[p].pc == Idle && t.players[p].loc == s.players[p].loc
      && if i in w.obtainable && Holds(s, InZone(z), i)
         then t.players[p].inventory == s.players[p].inventory + {i} && OnlyMoves(s, t, i, Carried(p))
         else t.players[p].inventory == s.players[p].inventory && NothingMoves(s, t)
  {
    StepRelocates(w, s, RunStep(w, s, p), Run(p));
    assert Step(w, s, RunStep(w, s, p), Run(p));
  }

  /** TAKE, in every run: an item that is there and may be taken goes into the player's hands, at the
      last step, and nothing else moves then; otherwise nothing does. */
  lemma TakeMovesTheItem(w: World, run: seq<State>, a: nat, b: nat, p: Name, i: ItemId)
    requires w.Ok() && IsRun(w, run) && Serves(w, run, a, b, Take(p, i))
    ensures var z, s, t := run[a].players[p].loc, run[b - 1], run[b];
      && t.players[p].loc == z
      && if i in w.obtainable && Holds(s, InZone(z), i)
         then t.players[p].inventory == run[a].players[p].inventory + {i} && OnlyMoves(s, t, i, Carried(p))
         else t.players[p].inventory == run[a].players[p].inventory && NothingMoves(s, t)
  {
    assert a + 1 < b;
    TakeAlong(w, run, a, b - 1, p, i);
    assert NextAt(w, run, b - 1);
    OwnStep(w, run[b - 1], run[b], p);
    EveryItemOnce(w, run, b - 1);
    TakeSection(w, run[b - 1], p, i, run[a].players[p].loc);
  }

  // ---- DROP ----

  ghost predicate DropOn(s: State, t: State, p: Name, i: ItemId) {
    p in s.players && p in t.players && t.players[p].loc == s.players[p].loc &&
    var me, now := s.players[p], t.players[p];
    match now.pc
    case DropCheck(j, z) => i == j && z == me.loc && now.inventory == me.inventory
    case DropRemove(j, z) => i == j && z == me.loc && i in me.inventory && now.inventory == me.inventory
    case DropPlace(j, z) => i == j && z == me.loc && i in me.inventory && now.inventory == me.inventory - {i}
    case Idle =>
      if i in me.inventory then now.inventory == me.inventory - {i} && Holds(t, InZone(me.loc), i)
      else now.inventory == me.inventory
    case _ => false
  }

  lemma DropOwn(w: World, s: State, t: State, p: Name, i: ItemId)
    requires DropOn(s, t, p, i) && Busy(t, p) && s.players[p].loc in t.zoneItems
    ensures DropOn(s, RunStep(w, t, p), p, i)
  {
  }

  lemma {:induction false} DropAlong(w: World, run: seq<State>, a: nat, k: nat, p: Name, i: ItemId)
    requires w.Ok() && IsRun(w, run) && Under(w, run, a, k, Drop(p, i))
    ensures DropOn(run[a], run[k], p, i)
    decreases k
  {
    if k > a + 1 {
      DropAlong(w, run, a, k - 1, p, i);
      assert NextAt(w, run, k - 1) && Busy(run[k - 1], p);
      OwnStep(w, run[k - 1], run[k], p);
      EveryItemOnce(w, run, k - 1);
      DropOwn(w, run[a], run[k - 1], p, i);
    }
  }

  /** DROP, in every run: what the player carried lies in the zone afterwards and is gone from the
      inventory; a player who does not carry it keeps everything. */
  lemma DropMovesTheItem(w: World, run: seq<State>, a: nat, b: nat, p: Name, i: ItemId)
    requires w.Ok() && IsRun(w, run) && Serves(w, run, a, b, Drop(p, i))
    ensures var me, t := run[a].players[p], run[b];
      && t.players[p].loc == me.loc
      && if i in me.inventory then t.players[p].inventory == me.inventory - {i} && Holds(t, InZone(me.loc), i)
         else t.players[p].inventory == me.inventory
  {
    DropAlong(w, run, a, b, p, i);
  }

  // ---- Walking, arriving ----

  /** A walk takes the player there with all it carries, and leaves every item where it is. */
  lemma WalkCarriesAll(w: World, s: State, t: State, p: Name, z: ZoneId)
    requires Step(w, s, t, Move(p, z))
    ensures p in s.players && p in t.players && t.players[p].loc == z && t.players[p].inventory == s.players[p].inventory
    ensures NothingMoves(s, t)
  {
  }

  /** A newcomer comes to the starting zone with nothing. */
  lemma ArrivesEmptyHanded(w: World, s: State, t: State, p: Name)
    requires Step(w, s, t, Connect(p))
    ensures p in t.players && t.players[p].loc == w.start && t.players[p].inventory == {} && NothingMoves(s, t)
  {
  }

  // ---- What a disconnect needs ----

  /** A cleanup never waits: every item still to be returned can be returned next, and with none
      left the session can end. */
  lemma CleanupGoesOn(w: World, run: seq<State>, n: nat, p: Name)
    requires w.Ok() && IsRun(w, run) && n < |run| && p in run[n].players && run[n].players[p].pc.CleanReturn?
    ensures forall i :: i in run[n].players[p].pc.rest ==>
              exists t :: Step(w, run[n], t, Return(p, i)) && Holds(t, InZone(w.base[i]), i)
    ensures run[n].players[p].pc.rest == {} ==>
              exists t, u :: Step(w, run[n], t, Run(p)) && Step(w, t, u, Run(p)) && p !in u.players && u.zoneItems == run[n].zoneItems
  {
    var s := run[n];
    EveryItemOnce(w, run, n);
    var pc := s.players[p].pc;
    forall i | i in pc.rest ensures exists t :: Step(w, s, t, Return(p, i)) && Holds(t, InZone(w.base[i]), i) {
      assert Holds(s, InHand(p), i);
      var t := Put(Set(s, p, s.players[p].(pc := CleanReturn(pc.rest - {i}))), w.base[i], {i});
      assert Step(w, s, t, Return(p, i));
    }
    if pc.rest == {} {
      var t := RunStep(w, s, p);
      var u := RunStep(w, t, p);
      assert Step(w, s, t, Run(p)) && Step(w, t, u, Run(p));
    }
  }
}
