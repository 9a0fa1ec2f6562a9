/** Rings of group commands that wait for each other: who is in them, and that they are for ever. */
module PartyRings {
  import opened Wrappers
  import opened PartyLocks
  import opened PartySteps
  import opened PartyRuns

  ghost predicate IsRing(s: State, ring: seq<Pid>) {
    && (forall i :: 0 <= i < |ring| - 1 ==> WaitsFor(s, ring[i], ring[i + 1]))
    && (ring != [] ==> WaitsFor(s, ring[|ring| - 1], ring[0]))
  }

  function After(ring: seq<Pid>, i: nat): Pid
    requires i < |ring|
  {
    if i == |ring| - 1 then ring[0] else ring[i + 1]
  }

  lemma RingWaits(s: State, ring: seq<Pid>, i: nat)
    requires IsRing(s, ring) && i < |ring|
    ensures WaitsFor(s, ring[i], After(ring, i)) && exists j :: 0 <= j < |ring| && WaitsFor(s, ring[j], ring[i])
  {
    if i == 0 {
      assert WaitsFor(s, ring[|ring| - 1], ring[0]);
    } else {
      assert WaitsFor(s, ring[i - 1], ring[i - 1 + 1]);
    }
  }

  lemma RingOfStrays(s: State, strays: set<Pid>, ring: seq<Pid>, i: nat)
    requires Inv(s, strays) && IsRing(s, ring) && i < |ring|
    ensures ring[i] in strays && TellsDisbanded(s, ring[i])
  {
    RingWaits(s, ring, i);
    var j :| 0 <= j < |ring| && WaitsFor(s, ring[j], ring[i]);
    RingWaits(s, ring, j);
    var h :| 0 <= h < |ring| && WaitsFor(s, ring[h], ring[j]);
    var k := if i == |ring| - 1 then 0 else i + 1;
    RingWaits(s, ring, k);
    MiddleIsAstray(s, strays, ring[h], ring[j], ring[i], ring[k], After(ring, k));
  }

  /** With one stray at most, there is no ring of any length. */
  lemma NoCircularWait(s: State, strays: set<Pid>, ring: seq<Pid>)
    requires Inv(s, strays) && AtMostOne(strays) && IsRing(s, ring)
    ensures ring == []
  {
    if ring != [] {
      RingHasTwo(s, strays, ring);
    }
  }

  lemma RingHasTwo(s: State, strays: set<Pid>, ring: seq<Pid>)
    requires Inv(s, strays) && IsRing(s, ring) && ring != []
    ensures !AtMostOne(strays)
  {
    RingOfStrays(s, strays, ring, 0);
    RingOfStrays(s, strays, ring, |ring| - 1);
    RingWaits(s, ring, |ring| - 1);
    WaitsForAnother(s, strays, ring[|ring| - 1], ring[0]);
  }

  /** What every ring of waiting commands goes back to: each player in it has entered a group
      that was no longer registered and is telling its members, and there are two of them. */
  lemma RingNeedsTwo(run: seq<State>, split: bool, n: nat, ring: seq<Pid>)
    requires Run(run, split) && n < |run| && ring != [] && IsRing(run[n], ring)
    ensures forall p :: p in ring ==> p in Strayed(run, n) && TellsDisbanded(run[n], p)
    ensures !AtMostOne(Strayed(run, n))
  {
    RunKeeps(run, split, n);
    forall i: nat | i < |ring| ensures ring[i] in Strayed(run, n) && TellsDisbanded(run[n], ring[i]) {
      RingOfStrays(run[n], Strayed(run, n), ring, i);
    }
    RingHasTwo(run[n], Strayed(run, n), ring);
  }

  /** While no two players have strayed, no ring of commands waits for each other, and as long as
      any command is under way some command can take its next lock. */
  lemma NeverStuck(run: seq<State>, split: bool, n: nat)
    requires Run(run, split) && n < |run| && AtMostOne(Strayed(run, n))
    ensures forall ring :: IsRing(run[n], ring) ==> ring == []
    ensures (exists t :: t in run[n].pcs && run[n].pcs[t] != Idle) ==> exists u :: CanGo(run[n], u)
  {
    RunKeeps(run, split, n);
    forall ring | IsRing(run[n], ring) ensures ring == [] {
      NoCircularWait(run[n], Strayed(run, n), ring);
    }
    if t :| t in run[n].pcs && run[n].pcs[t] != Idle {
      var u := SomeoneCanGo(run[n], Strayed(run, n), t);
    }
  }

  /** A ring of waiting commands is for ever: no step of anyone breaks it. */
  lemma RingStays(s: State, s': State, ring: seq<Pid>, t: Pid, mv: Move, split: bool)
    requires IsRing(s, ring) && Step(s, s', t, mv, split)
    ensures IsRing(s', ring)
  {
    forall i: nat | i < |ring| ensures WaitsFor(s', ring[i], After(ring, i)) {
      var u, v := ring[i], After(ring, i);
      WaiterIsStill(s, s', ring, i, t, mv, split);
      WaiterIsStill(s, s', ring, if i == |ring| - 1 then 0 else i + 1, t, mv, split);
      var k :| Awaits(s, u, k) && Holds(v, s.pcs[v], k);
      assert Awaits(s', u, k) && Holds(v, s'.pcs[v], k);
    }
    assert forall i :: 0 <= i < |ring| - 1 ==> After(ring, i) == ring[i + 1];
  }

  lemma WaiterIsStill(s: State, s': State, ring: seq<Pid>, i: nat, t: Pid, mv: Move, split: bool)
    requires IsRing(s, ring) && Step(s, s', t, mv, split) && i < |ring|
    ensures ring[i] in s.pcs && ring[i] in s'.pcs && s'.pcs[ring[i]] == s.pcs[ring[i]] && !s.pcs[ring[i]].JoinFind?
  {
    RingWaits(s, ring, i);
    assert ring[i] != t;
  }
}
