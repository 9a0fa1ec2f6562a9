/** Quest prerequisites: the chain walk done at load time, and what it buys a player. */
module QuestChain {
  import opened SeqSets

  type QuestKey = string

  /** Quest key to the key it requires; "" requires nothing. */
  type Requirements = map<QuestKey, QuestKey>

  datatype Verdict = Accepted | Circular | Dangling

  /** One link of the chain; a key outside the file, and "", lead nowhere. */
  function Follow(q: Requirements, k: QuestKey): QuestKey {
    if k in q then q[k] else k
  }

  /** The n-th key met when following requirements from k. */
  function Chain(q: Requirements, k: QuestKey, n: nat): QuestKey
    decreases n
  {
    if n == 0 then k else Follow(q, Chain(q, k, n - 1))
  }

  ghost predicate Ends(q: Requirements, k: QuestKey) {
    exists n: nat :: Chain(q, k, n) == ""
  }

  ghost predicate Dangles(q: Requirements, k: QuestKey) {
    exists n: nat :: Chain(q, k, n) != "" && Chain(q, k, n) !in q
  }

  ghost predicate Returns(q: Requirements, k: QuestKey) {
    k in q && exists n: nat :: n >= 1 && Chain(q, k, n) == k
  }

  lemma {:induction false} ChainAdds(q: Requirements, k: QuestKey, m: nat, n: nat)
    ensures Chain(q, k, m + n) == Chain(q, Chain(q, k, m), n)
    decreases n
  {
    if n == 0 {
    } else {
      ChainAdds(q, k, m, n - 1);
    }
  }

  /** Once the chain leaves the file it stays where it left. */
  lemma {:induction false} ChainStops(q: Requirements, k: QuestKey, m: nat, n: nat)
    requires m <= n && Chain(q, k, m) !in q
    ensures Chain(q, k, n) == Chain(q, k, m)
    decreases n
  {
    if m == n {
    } else {
      ChainStops(q, k, m, n - 1);
    }
  }

  /** The keys Chain(0) .. Chain(n-1). */
  ghost function Steps(q: Requirements, k: QuestKey, n: nat): (s: seq<QuestKey>)
    ensures |s| == n && forall i :: 0 <= i < n ==> s[i] == Chain(q, k, i)
  {
    seq(n, i requires 0 <= i => Chain(q, k, i))
  }

  /** A walk that is still inside the file after as many links as there are quests has
      met a quest that lies on a circle no longer than the file. */
  lemma LongWalkMeetsCircle(q: Requirements, k: QuestKey) returns (i: nat, c: QuestKey, len: nat)
    requires forall n: nat :: n <= |q| ==> Chain(q, k, n) in q
    ensures c in q && c == Chain(q, k, i) && 1 <= len <= |q| && Chain(q, c, len) == c
  {
    var s := Steps(q, k, |q| + 1);
    assert |q| == |q.Keys|;
    var j: nat;
    i, j := Pigeonhole(s, q.Keys);
    c, len := s[i], j - i;
    ChainAdds(q, k, i, len);
  }

  /** Everything on a circle is met again and again: the chain never ends nor dangles. */
  lemma {:induction false} CircleForever(q: Requirements, c: QuestKey, len: nat, n: nat)
    requires c in q && len >= 1 && Chain(q, c, len) == c
    ensures Chain(q, c, n) in q
    decreases n
  {
    if Chain(q, c, n) !in q {
      if n < len {
        ChainStops(q, c, n, len);
      } else {
        ChainAdds(q, c, len, n - len);
        CircleForever(q, c, len, n - len);
      }
    }
  }

  /** The shortest return of a quest on a circle fits the step bound of the walk. */
  lemma ShortReturn(q: Requirements, k: QuestKey) returns (len: nat)
    requires Returns(q, k)
    ensures 1 <= len <= |q| && Chain(q, k, len) == k
    ensures forall n :: 1 <= n < len ==> Chain(q, k, n) != k
  {
    var n: nat :| n >= 1 && Chain(q, k, n) == k;
    len := Least(q, k, n);
    if len > |q| {
      forall m: nat | m <= |q| ensures Chain(q, k, m) in q {
        CircleForever(q, k, len, m);
      }
      var i, c, l := LongWalkMeetsCircle(q, k);
      Shortcut(q, k, len, i, l);
      assert false;
    }
  }

  lemma {:induction false} Least(q: Requirements, k: QuestKey, n: nat) returns (len: nat)
    requires n >= 1 && Chain(q, k, n) == k
    ensures 1 <= len <= n && Chain(q, k, len) == k
    ensures forall m :: 1 <= m < len ==> Chain(q, k, m) != k
  {
    if m: nat :| 1 <= m < n && Chain(q, k, m) == k {
      len := Least(q, k, m);
    } else {
      len := n;
    }
  }

  /** A circle met on the way round another circle is that circle: k returns as fast. */
  lemma Shortcut(q: Requirements, k: QuestKey, len: nat, i: nat, l: nat)
    requires len >= 1 && Chain(q, k, len) == k
    requires Chain(q, Chain(q, k, i), l) == Chain(q, k, i)
    ensures Chain(q, k, l) == k
  {
    // from position i to the next multiple of len
    var t := (i / len + 1) * len - i;
    RoundTrips(q, k, len, i / len + 1);
    ChainAdds(q, k, i, t);
    var c := Chain(q, k, i);
    assert Chain(q, c, t) == k;
    ChainAdds(q, c, t, l);
    ChainAdds(q, c, l, t);
  }

  lemma {:induction false} RoundTrips(q: Requirements, k: QuestKey, len: nat, times: nat)
    requires Chain(q, k, len) == k
    ensures times * len >= 0 && Chain(q, k, times * len) == k
    decreases times
  {
    if times == 0 {
    } else {
      RoundTrips(q, k, len, times - 1);
      assert times * len == (times - 1) * len + len;
      ChainAdds(q, k, (times - 1) * len, len);
    }
  }

  /** The walk from one quest. It gives up silently after more links than there are
      quests, so a circle that does not pass through key is accepted here. */
  method WalkChain(q: Requirements, key: QuestKey) returns (v: Verdict)
    requires key in q && "" !in q
    ensures v == Circular <==> Returns(q, key)
    ensures v == Dangling <==> Dangles(q, key)
  {
    var current, steps := q[key], 0;
    while current != ""
      invariant current == Chain(q, key, steps + 1)
      invariant steps <= |q|
      invariant forall n :: 1 <= n <= steps ==> Chain(q, key, n) != key
      invariant forall n :: 0 <= n <= steps ==> Chain(q, key, n) in q
      decreases |q| + 1 - steps
    {
      steps := steps + 1;
      if current == key {
        CircleNeverDangles(q, key, key, 0, steps);
        return Circular;
      }
      if steps > |q| {
        var i, c, len := LongWalkMeetsCircle(q, key);
        CircleNeverDangles(q, key, c, i, len);
        if Returns(q, key) {
          var short := ShortReturn(q, key);
          assert false;
        }
        return Accepted;
      }
      if current !in q {
        NoReturnFromOutside(q, key, steps);
        return Dangling;
      }
      current := q[current];
    }
    NoReturnFromOutside(q, key, steps + 1);
    forall n: nat ensures Chain(q, key, n) == "" || Chain(q, key, n) in q {
      if n >= steps + 1 {
        ChainStops(q, key, steps + 1, n);
      }
    }
    return Accepted;
  }

  lemma NoReturnFromOutside(q: Requirements, k: QuestKey, m: nat)
    requires k in q && Chain(q, k, m) !in q
    requires forall n :: 1 <= n < m ==> Chain(q, k, n) != k
    ensures !Returns(q, k)
  {
    if Returns(q, k) {
      var n: nat :| n >= 1 && Chain(q, k, n) == k;
      if n >= m {
        ChainStops(q, k, m, n);
      }
    }
  }

  lemma CircleNeverDangles(q: Requirements, k: QuestKey, c: QuestKey, i: nat, len: nat)
    requires c in q && c == Chain(q, k, i) && len >= 1 && Chain(q, c, len) == c
    requires "" !in q
    ensures !Dangles(q, k) && !Ends(q, k)
  {
    forall n: nat ensures Chain(q, k, n) in q {
      if n < i {
        if Chain(q, k, n) !in q {
          ChainStops(q, k, n, i);
        }
      } else {
        ChainAdds(q, k, i, n - i);
        CircleForever(q, c, len, n - i);
      }
    }
  }

  /** The file as a whole is accepted when no quest is rejected. */
  method CheckRequirements(q: Requirements) returns (ok: bool)
    requires "" !in q
    ensures ok <==> forall k :: k in q ==> Ends(q, k)
    ensures !ok <==> exists k :: k in q && (Returns(q, k) || (q[k] != "" && q[k] !in q))
  {
    var rest := q.Keys;
    while rest != {}
      invariant rest <= q.Keys
      invariant forall k :: k in q && k !in rest ==> !Returns(q, k) && !Dangles(q, k)
    {
      var key :| key in rest;
      rest := rest - {key};
      var v := WalkChain(q, key);
      if v != Accepted {
        RejectedIsBroken(q, key);
        return false;
      }
    }
    forall k | k in q ensures Ends(q, k) && (q[k] == "" || q[k] in q) {
      SoundChainEnds(q, k);
      assert Chain(q, k, 1) == Follow(q, Chain(q, k, 0));
    }
    return true;
  }

  lemma RejectedIsBroken(q: Requirements, key: QuestKey)
    requires key in q && "" !in q && (Returns(q, key) || Dangles(q, key))
    ensures !Ends(q, key)
    ensures exists k :: k in q && (Returns(q, k) || (q[k] != "" && q[k] !in q))
  {
    if Returns(q, key) {
      var n: nat :| n >= 1 && Chain(q, key, n) == key;
      CircleNeverDangles(q, key, key, 0, n);
    } else {
      var n: nat :| Chain(q, key, n) != "" && Chain(q, key, n) !in q;
      var m := FirstOutside(q, key, n);
      if e: nat :| Chain(q, key, e) == "" {
        if e <= n {
          ChainStops(q, key, e, n);
        } else {
          ChainStops(q, key, n, e);
        }
      }
    }
  }

  lemma {:induction false} FirstOutside(q: Requirements, key: QuestKey, n: nat) returns (m: nat)
    requires key in q && Chain(q, key, n) !in q
    ensures m < n && Chain(q, key, m) in q && q[Chain(q, key, m)] == Chain(q, key, n)
    decreases n
  {
    if Chain(q, key, n - 1) in q {
      m := n - 1;
    } else {
      m := FirstOutside(q, key, n - 1);
    }
  }

  /** With no circle and no dangling reference anywhere, every chain ends. */
  lemma SoundChainEnds(q: Requirements, k: QuestKey)
    requires k in q && forall c :: c in q ==> !Returns(q, c) && !Dangles(q, c)
    ensures Ends(q, k)
  {
    if forall n: nat :: n <= |q| ==> Chain(q, k, n) in q {
      var i, c, len := LongWalkMeetsCircle(q, k);
      assert Returns(q, c);
    } else {
      var n: nat :| n <= |q| && Chain(q, k, n) !in q;
      assert Chain(q, k, n) == "";
    }
  }

  /** A walk that runs into a circle elsewhere is abandoned and its quest accepted; the
      file is still rejected, at the quests on the circle. */
  lemma AbandonedWalk()
    ensures var q := map["tail" := "a", "a" := "b", "b" := "a"];
            !Returns(q, "tail") && !Dangles(q, "tail") && !Ends(q, "tail") && Returns(q, "a") && Returns(q, "b")
  {
    var q: Requirements := map["tail" := "a", "a" := "b", "b" := "a"];
    assert Chain(q, "tail", 1) == Follow(q, Chain(q, "tail", 0)) == "a";
    assert Chain(q, "a", 1) == Follow(q, Chain(q, "a", 0)) == "b";
    assert Chain(q, "a", 2) == Follow(q, Chain(q, "a", 1)) == "a";
    assert Chain(q, "b", 1) == Follow(q, Chain(q, "b", 0)) == "a";
    assert Chain(q, "b", 2) == Follow(q, Chain(q, "b", 1)) == "b";
    CircleNeverDangles(q, "tail", "a", 1, 2);
    forall n: nat | n >= 1 ensures Chain(q, "tail", n) in {"a", "b"} {
      TailStaysOnCircle(q, n);
    }
  }

  lemma {:induction false} TailStaysOnCircle(q: Requirements, n: nat)
    requires q == map["tail" := "a", "a" := "b", "b" := "a"] && n >= 1
    ensures Chain(q, "tail", n) in {"a", "b"}
    decreases n
  {
    if n == 1 {
      assert Chain(q, "tail", 1) == Follow(q, Chain(q, "tail", 0));
    } else {
      TailStaysOnCircle(q, n - 1);
    }
  }

  // ---- Offering quests ----

  datatype QuestStatus = Active | Completed

  /** A quest may be offered to a player holding these quests. */
  predicate Eligible(q: Requirements, held: map<QuestKey, QuestStatus>, k: QuestKey) {
    && k in q && k !in held
    && (q[k] == "" || (q[k] in held && held[q[k]] == Completed))
  }

  /** The first eligible quest of an NPC, its quests taken in any order. */
  method GetNPCQuest(q: Requirements, offered: set<QuestKey>, held: map<QuestKey, QuestStatus>)
    returns (found: bool, key: QuestKey)
    requires offered <= q.Keys
    ensures found <==> exists k :: k in offered && Eligible(q, held, k)
    ensures found ==> key in offered && Eligible(q, held, key)
  {
    var rest := offered;
    key := "";
    while rest != {}
      invariant rest <= offered
      invariant forall k :: k in offered && k !in rest ==> !Eligible(q, held, k)
    {
      var k :| k in rest;
      rest := rest - {k};
      if k in held {
        continue;
      }
      if q[k] != "" {
        if q[k] !in held || held[q[k]] != Completed {
          continue;
        }
      }
      return true, k;
    }
    return false, key;
  }

  /** Every held quest was eligible when it was taken. */
  ghost predicate PrerequisitesDone(q: Requirements, held: map<QuestKey, QuestStatus>) {
    forall k :: k in held ==> k in q && (q[k] == "" || (q[k] in held && held[q[k]] == Completed))
  }

  /** A player who has finished everything taken so far, but not everything there is, can
      always be offered something: the load-time check leaves no quest locked for good. */
  lemma SomeQuestIsOffered(q: Requirements, held: map<QuestKey, QuestStatus>, missing: QuestKey) returns (k: QuestKey)
    requires "" !in q && (forall c :: c in q ==> Ends(q, c))
    requires forall h :: h in held ==> held[h] == Completed
    requires missing in q && missing !in held
    ensures Eligible(q, held, k)
  {
    var n: nat :| Chain(q, missing, n) == "";
    k := FirstUnlocked(q, held, missing, n);
  }

  lemma {:induction false} FirstUnlocked(q: Requirements, held: map<QuestKey, QuestStatus>, k: QuestKey, n: nat) returns (e: QuestKey)
    requires "" !in q && (forall c :: c in q ==> Ends(q, c))
    requires forall h :: h in held ==> held[h] == Completed
    requires k in q && k !in held && Chain(q, k, n) == ""
    ensures Eligible(q, held, e)
    decreases n
  {
    if q[k] == "" || q[k] in held {
      e := k;
    } else {
      ChainAdds(q, k, 1, n - 1);
      assert Chain(q, k, 1) == Follow(q, Chain(q, k, 0)) == q[k];
      if q[k] !in q {
        ChainStops(q, k, 1, n);
      }
      e := FirstUnlocked(q, held, q[k], n - 1);
    }
  }
}
