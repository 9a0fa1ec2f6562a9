/** The two walks over the zone graph that decide whether a loaded world may be served:
    breadth-first reachability and depth-first loop detection. */
module ZoneGraph {
  import opened SeqSets

  type ZoneKey = string

  datatype Direction = Up | Down | North | East | South | West

  /** Zone key to its exits. Which direction leads where is kept, so two directions may
      lead to the same zone. */
  type ZoneMap = map<ZoneKey, map<Direction, ZoneKey>>

  /** Every exit names an existing zone: the server checks this before both walks. */
  ghost predicate Closed(zones: ZoneMap) {
    forall z, d :: z in zones && d in zones[z] ==> zones[z][d] in zones
  }

  ghost predicate Edge(zones: ZoneMap, a: ZoneKey, b: ZoneKey) {
    a in zones && exists d :: d in zones[a] && zones[a][d] == b
  }

  ghost predicate IsWalk(zones: ZoneMap, p: seq<ZoneKey>) {
    && |p| >= 1
    && forall i :: 0 <= i < |p| - 1 ==> Edge(zones, p[i], p[i + 1])
  }

  ghost predicate WalkFromTo(zones: ZoneMap, p: seq<ZoneKey>, a: ZoneKey, b: ZoneKey) {
    IsWalk(zones, p) && p[0] == a && p[|p| - 1] == b
  }

  ghost predicate Reachable(zones: ZoneMap, a: ZoneKey, b: ZoneKey) {
    exists p :: WalkFromTo(zones, p, a, b)
  }

  /** A closed walk through c that takes at least one exit. */
  ghost predicate OnLoop(zones: ZoneMap, c: ZoneKey) {
    exists p :: |p| >= 2 && WalkFromTo(zones, p, c, c)
  }

  ghost predicate LoopReachable(zones: ZoneMap, start: ZoneKey) {
    exists c :: Reachable(zones, start, c) && OnLoop(zones, c)
  }

  lemma ReachStep(zones: ZoneMap, a: ZoneKey, b: ZoneKey, c: ZoneKey)
    requires Reachable(zones, a, b) && Edge(zones, b, c)
    ensures Reachable(zones, a, c)
  {
    var p :| WalkFromTo(zones, p, a, b);
    assert WalkFromTo(zones, p + [c], a, c);
  }

  lemma ReachSelf(zones: ZoneMap, a: ZoneKey)
    ensures Reachable(zones, a, a)
  {
    assert WalkFromTo(zones, [a], a, a);
  }

  /** A set closed under exits that holds the first zone of a walk holds all of it. */
  lemma {:induction false} WalkStaysIn(zones: ZoneMap, s: set<ZoneKey>, p: seq<ZoneKey>, k: nat)
    requires IsWalk(zones, p) && p[0] in s && k < |p|
    requires forall a, b :: a in s && Edge(zones, a, b) ==> b in s
    ensures p[k] in s
  {
    if k == 0 {
    } else {
      WalkStaysIn(zones, s, p, k - 1);
      assert Edge(zones, p[k - 1], p[k]);
    }
  }

  /** Breadth-first walk from start, the exits of each zone taken in any order. */
  method ValidateMapConnectivity(zones: ZoneMap, start: ZoneKey) returns (ok: bool)
    requires start in zones && Closed(zones)
    ensures ok <==> forall z :: z in zones ==> Reachable(zones, start, z)
  {
    var visited: seq<ZoneKey>, queue := [], [start];
    ReachSelf(zones, start);
    while |queue| >= 1
      invariant NoDup(visited + queue)
      invariant forall z :: z in visited + queue ==> z in zones && Reachable(zones, start, z)
      invariant start in visited + queue
      invariant forall a, b :: a in visited && Edge(zones, a, b) ==> b in visited + queue
      invariant |visited| <= |zones|
      decreases |zones| - |visited|
    {
      ghost var before := visited + queue;
      var current := queue[0];
      visited := visited + [current];
      queue := queue[1..];
      assert visited + queue == before;
      NoDupPrefix(visited, queue);
      BoundedBy(visited, zones.Keys);
      var rest := zones[current].Keys;
      while rest != {}
        invariant rest <= zones[current].Keys
        invariant NoDup(visited + queue)
        invariant forall z :: z in visited + queue ==> z in zones && Reachable(zones, start, z)
        invariant start in visited + queue
        invariant forall z :: z in before ==> z in visited + queue
        invariant forall a, b :: a in visited && a != current && Edge(zones, a, b) ==> b in visited + queue
        invariant forall d :: d in zones[current] && d !in rest ==> zones[current][d] in visited + queue
      {
        var d :| d in rest;
        rest := rest - {d};
        var conn := zones[current][d];
        if conn !in visited && conn !in queue {
          assert Edge(zones, current, conn);
          ReachStep(zones, start, current, conn);
          assert visited + (queue + [conn]) == (visited + queue) + [conn];
          queue := queue + [conn];
        }
      }
    }
    assert visited + queue == visited;
    NoDupCard(visited);
    SubsetCard(Elems(visited), zones.Keys);
    ok := |visited| == |zones|;
    assert |zones| == |zones.Keys|;
    if ok {
      forall z | z in zones ensures Reachable(zones, start, z) {
        assert z in Elems(visited);
        assert z in visited + queue;
      }
    }
    forall z | z in zones && Reachable(zones, start, z) ensures z in Elems(visited) {
      var p :| WalkFromTo(zones, p, start, z);
      WalkStaysIn(zones, Elems(visited), p, |p| - 1);
    }
    if forall z :: z in zones ==> Reachable(zones, start, z) {
      assert Elems(visited) == zones.Keys;
    }
  }

  lemma BoundedBy(s: seq<ZoneKey>, pool: set<ZoneKey>)
    requires NoDup(s) && forall z :: z in s ==> z in pool
    ensures |s| <= |pool|
  {
    NoDupCard(s);
    SubsetCard(Elems(s), pool);
  }

  /** Every exit of an explored zone leads to a zone explored before it. */
  ghost predicate ExploredInOrder(zones: ZoneMap, s: seq<ZoneKey>) {
    forall i, b :: 0 <= i < |s| && Edge(zones, s[i], b) ==> b in s[..i]
  }

  lemma ExploreNext(zones: ZoneMap, s: seq<ZoneKey>, z: ZoneKey)
    requires ExploredInOrder(zones, s) && forall b :: Edge(zones, z, b) ==> b in s
    ensures ExploredInOrder(zones, s + [z])
  {
    var t := s + [z];
    forall i, b | 0 <= i < |t| && Edge(zones, t[i], b) ensures b in t[..i] {
      assert t[..i] == s[..i];
      if i < |s| {
        assert t[i] == s[i];
      } else {
        assert s[..i] == s;
      }
    }
  }

  /** Along a walk the position in an exploration order only falls, so no walk that
      starts in the order ever returns. */
  lemma {:induction false} ExploredIsLoopFree(zones: ZoneMap, s: seq<ZoneKey>, p: seq<ZoneKey>, i: nat) returns (j: nat)
    requires ExploredInOrder(zones, s) && NoDup(s)
    requires IsWalk(zones, p) && i < |s| && p[0] == s[i]
    ensures j < |s| && p[|p| - 1] == s[j]
    ensures |p| >= 2 ==> j < i && p[|p| - 1] != p[0]
    decreases |p|
  {
    if |p| == 1 {
      j := i;
    } else {
      assert Edge(zones, p[0], p[1]);
      var k :| 0 <= k < i && s[k] == p[1];
      var q := p[1..];
      forall m | 0 <= m < |q| - 1 ensures Edge(zones, q[m], q[m + 1]) {
        assert Edge(zones, p[m + 1], p[m + 2]);
      }
      j := ExploredIsLoopFree(zones, s, q, k);
    }
  }

  lemma OnPathLoop(zones: ZoneMap, path: seq<ZoneKey>, z: ZoneKey)
    requires IsWalk(zones, path) && z in path && Edge(zones, path[|path| - 1], z)
    ensures LoopReachable(zones, path[0])
  {
    var i :| 0 <= i < |path| && path[i] == z;
    assert WalkFromTo(zones, path[..i + 1], path[0], z);
    var loop := path[i..] + [z];
    assert loop[0] == z && loop[|loop| - 1] == z && |loop| >= 2;
    forall k | 0 <= k < |loop| - 1 ensures Edge(zones, loop[k], loop[k + 1]) {
      if k < |path| - i - 1 {
        assert Edge(zones, path[i + k], path[i + k + 1]);
      }
    }
    assert WalkFromTo(zones, loop, z, z);
    assert Reachable(zones, path[0], z) && OnLoop(zones, z);
  }

  /** Where the depth-first walk stands: a walk without repetition, and apart from it the
      zones already explored, in an order that no exit leads against. */
  ghost predicate OnTrack(zones: ZoneMap, path: seq<ZoneKey>, explored: seq<ZoneKey>) {
    && IsWalk(zones, path)
    && NoDup(path) && NoDup(explored)
    && (forall z :: z in path ==> z in zones && z !in explored)
    && (forall z :: z in explored ==> z in zones)
    && ExploredInOrder(zones, explored)
  }

  lemma StepDown(zones: ZoneMap, path: seq<ZoneKey>, explored: seq<ZoneKey>, z: ZoneKey)
    requires Closed(zones) && OnTrack(zones, path, explored) && Edge(zones, path[|path| - 1], z) && z !in path && z !in explored
    ensures OnTrack(zones, path + [z], explored)
    ensures zones.Keys - Elems(path + [z]) - Elems(explored) < zones.Keys - Elems(path) - Elems(explored)
  {
    assert z in zones.Keys - Elems(path) - Elems(explored);
    assert Elems(path + [z]) == Elems(path) + {z};
  }

  lemma StepUp(zones: ZoneMap, path: seq<ZoneKey>, explored: seq<ZoneKey>, z: ZoneKey)
    requires IsWalk(zones, path) && OnTrack(zones, path + [z], explored) && forall b :: Edge(zones, z, b) ==> b in explored
    ensures OnTrack(zones, path, explored + [z])
  {
    NoDupPrefix(path, [z]);
    forall y | y in path ensures y in path + [z] && y != z {
      var i :| 0 <= i < |path| && path[i] == y;
      assert (path + [z])[i] == y && (path + [z])[|path|] == z;
    }
    assert z in path + [z];
    ExploreNext(zones, explored, z);
  }

  /** The two slices the depth-first walk shares through pointers. */
  class LoopWalk {
    var onPath: seq<ZoneKey>
    var fullyExplored: seq<ZoneKey>

    constructor (start: ZoneKey)
      ensures onPath == [start] && fullyExplored == []
    {
      onPath := [start];
      fullyExplored := [];
    }

    ghost predicate Valid(zones: ZoneMap)
      reads this
    {
      OnTrack(zones, onPath, fullyExplored)
    }

    /** Walks the exits of current in any order. It answers true only when a loop can be
        reached from the root of the path; otherwise it restores the path and leaves
        every exit of current explored. */
    method MapLooper(zones: ZoneMap, current: ZoneKey) returns (loop: bool)
      requires Closed(zones) && Valid(zones) && onPath[|onPath| - 1] == current
      modifies this
      ensures loop ==> LoopReachable(zones, old(onPath)[0])
      ensures !loop ==> Valid(zones) && onPath == old(onPath) && old(fullyExplored) <= fullyExplored
      ensures !loop ==> forall b :: Edge(zones, current, b) ==> b in fullyExplored
      decreases zones.Keys - Elems(onPath) - Elems(fullyExplored)
    {
      var rest := zones[current].Keys;
      while rest != {}
        invariant rest <= zones[current].Keys
        invariant Valid(zones) && onPath == old(onPath) && old(fullyExplored) <= fullyExplored
        invariant forall d :: d in zones[current] && d !in rest ==> zones[current][d] in fullyExplored
      {
        var d :| d in rest;
        rest := rest - {d};
        var z := zones[current][d];
        assert Edge(zones, current, z);
        if z in onPath {
          OnPathLoop(zones, onPath, z);
          return true;
        }
        if z !in fullyExplored {
          ghost var path := onPath;
          Deeper(zones, onPath, old(fullyExplored), fullyExplored, z);
          onPath := onPath + [z];
          var found := MapLooper(zones, z);
          if found {
            return true;
          }
          StepUp(zones, path, fullyExplored, z);
          fullyExplored := fullyExplored + [z];
          onPath := DeleteAll(onPath, z);
          DeleteAllLast(path, z);
        }
      }
      return false;
    }
  }

  /** What bounds the recursion: fewer zones are left the deeper it goes, also when more were
      explored since the caller began. */
  lemma Deeper(zones: ZoneMap, path: seq<ZoneKey>, before: seq<ZoneKey>, explored: seq<ZoneKey>, z: ZoneKey)
    requires Closed(zones) && OnTrack(zones, path, explored) && before <= explored
    requires Edge(zones, path[|path| - 1], z) && z !in path && z !in explored
    ensures OnTrack(zones, path + [z], explored)
    ensures zones.Keys - Elems(path + [z]) - Elems(explored) < zones.Keys - Elems(path) - Elems(before)
  {
    StepDown(zones, path, explored, z);
    assert forall y :: y in before ==> y in explored;
    assert zones.Keys - Elems(path) - Elems(explored) <= zones.Keys - Elems(path) - Elems(before);
  }

  /** slices.DeleteFunc with an equality test. */
  function DeleteAll(s: seq<ZoneKey>, z: ZoneKey): (r: seq<ZoneKey>) {
    if s == [] then []
    else if s[0] == z then DeleteAll(s[1..], z)
    else [s[0]] + DeleteAll(s[1..], z)
  }

  lemma {:induction false} DeleteAllLast(s: seq<ZoneKey>, z: ZoneKey)
    requires z !in s
    ensures DeleteAll(s + [z], z) == s
  {
    if s == [] {
    } else {
      assert (s + [z])[1..] == s[1..] + [z];
      DeleteAllLast(s[1..], z);
    }
  }

  /** The answer of the depth-first check is exact, for every order of exits. */
  method MapLoopExists(zones: ZoneMap, start: ZoneKey) returns (found: bool)
    requires start in zones && Closed(zones)
    ensures found <==> LoopReachable(zones, start)
  {
    var walk := new LoopWalk(start);
    found := walk.MapLooper(zones, start);
    if !found && LoopReachable(zones, start) {
      ghost var c :| Reachable(zones, start, c) && OnLoop(zones, c);
      NoLoopAfterExploring(zones, start, walk.fullyExplored, c);
    }
  }

  lemma NoLoopAfterExploring(zones: ZoneMap, start: ZoneKey, explored: seq<ZoneKey>, c: ZoneKey)
    requires ExploredInOrder(zones, explored) && NoDup(explored) && start !in explored
    requires forall b :: Edge(zones, start, b) ==> b in explored
    requires Reachable(zones, start, c)
    ensures !OnLoop(zones, c)
  {
    if OnLoop(zones, c) {
      var p :| WalkFromTo(zones, p, start, c);
      var q :| |q| >= 2 && WalkFromTo(zones, q, c, c);
      var region := Elems(explored) + {start};
      WalkStaysIn(zones, region, p, |p| - 1);
      if c == start {
        assert Edge(zones, q[0], q[1]);
        WalkStaysIn(zones, Elems(explored), q[1..], |q| - 2);
      } else {
        var i :| 0 <= i < |explored| && explored[i] == c;
        var j := ExploredIsLoopFree(zones, explored, q, i);
      }
    }
  }
}
