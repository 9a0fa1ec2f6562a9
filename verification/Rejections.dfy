/** The rejection counter, read off the calls alone: how many queries were refused since the
    window was opened, and when that starts a timeout. */
module Rejections {
  import opened Wrappers
  import TokenBucket
  import opened RateLimit

  predicate Refused(s: Limits, calls: seq<Call>, i: nat)
    requires i < |calls|
  {
    calls[i].Query? && OutcomeOf(s, calls, i) != Served
  }

  /** The refused query that opened the window in force before call n: the first that came more
      than ten seconds after the window before it was opened. */
  function Opener(s: Limits, calls: seq<Call>, n: nat): Option<nat>
    requires n <= |calls|
    ensures var k := Opener(s, calls, n); k.Some? ==> k.value < n && Refused(s, calls, k.value)
    decreases n
  {
    if n == 0 then None
    else if Refused(s, calls, n - 1) && calls[n - 1].bucketAt > OpenedAt(s, calls, Opener(s, calls, n - 1)) + 10.0 then Some(n - 1)
    else Opener(s, calls, n - 1)
  }

  function OpenedAt(s: Limits, calls: seq<Call>, opener: Option<nat>): real
    requires opener.Some? ==> opener.value < |calls| && calls[opener.value].Query?
  {
    if opener.Some? then calls[opener.value].windowAt else s.rejectionTS
  }

  /** How many of the calls from lo up to hi were refused queries. */
  function RefusedIn(s: Limits, calls: seq<Call>, lo: nat, hi: nat): nat
    requires lo <= hi <= |calls|
    decreases hi - lo
  {
    if lo == hi then 0 else RefusedIn(s, calls, lo, hi - 1) + (if Refused(s, calls, hi - 1) then 1 else 0)
  }

  /** The refused queries of the window in force before call n. */
  function InWindow(s: Limits, calls: seq<Call>, n: nat): int
    requires n <= |calls|
  {
    match Opener(s, calls, n)
    case None => s.rejections + RefusedIn(s, calls, 0, n)
    case Some(k) => RefusedIn(s, calls, k, n)
  }

  /** The counter for so many refused queries: every twentieth that it reaches counts as the first
      of the next nineteen. */
  function Counter(refused: int): int {
    if refused <= 0 then 0 else 1 + (refused - 1) % 19
  }

  predicate Twentieth(refused: int) {
    refused >= 20 && (refused - 1) % 19 == 0
  }

  lemma CounterNext(r: int)
    requires r >= 0
    ensures Counter(r + 1) == if Counter(r) + 1 >= 20 then 1 else Counter(r) + 1
    ensures Twentieth(r + 1) <==> Counter(r) + 1 >= 20
  {
  }

  lemma Grows(s: Limits, calls: seq<Call>, n: nat)
    requires 0 <= s.rejections && n < |calls|
    ensures 0 <= InWindow(s, calls, n)
    ensures InWindow(s, calls, n + 1) ==
            if !Refused(s, calls, n) then InWindow(s, calls, n)
            else if calls[n].bucketAt > OpenedAt(s, calls, Opener(s, calls, n)) + 10.0 then 1
            else InWindow(s, calls, n) + 1
  {
    assert RefusedIn(s, calls, n, n) == 0;
    assert RefusedIn(s, calls, n, n + 1) == RefusedIn(s, calls, n, n) + (if Refused(s, calls, n) then 1 else 0);
  }

  /** In every history the counter is the number of refused queries of the window in force, with
      every twentieth counted as a first. */
  lemma {:induction false} CounterCountsRefusals(s: Limits, calls: seq<Call>, n: nat)
    requires 0 <= s.rejections <= 19 && n <= |calls|
    ensures var t := After(s, calls, n);
      && t.rejectionTS == OpenedAt(s, calls, Opener(s, calls, n))
      && t.rejections == Counter(InWindow(s, calls, n)) && 0 <= InWindow(s, calls, n)
    decreases n
  {
    if n > 0 {
      CounterCountsRefusals(s, calls, n - 1);
      Grows(s, calls, n - 1);
      CounterNext(InWindow(s, calls, n - 1));
      OneCallCounted(After(s, calls, n - 1), calls[n - 1]);
    }
  }

  /** For a new player the count starts from nothing. */
  lemma NewPlayerCounts(zero: real, calls: seq<Call>, n: nat)
    requires n <= |calls|
    ensures var s := NewPlayer(zero); var k := Opener(s, calls, n);
      After(s, calls, n).rejections == Counter(RefusedIn(s, calls, if k.Some? then k.value else 0, n))
  {
    CounterCountsRefusals(NewPlayer(zero), calls, n);
  }

  lemma OneCallCounted(s: Limits, c: Call)
    ensures var (t, o) := Dispatch(s, c);
      if !(c.Query? && o != Served) then t.rejections == s.rejections && t.rejectionTS == s.rejectionTS
      else if c.bucketAt > s.rejectionTS + 10.0 then t.rejections == 1 && t.rejectionTS == c.windowAt
      else t.rejections == (if s.rejections + 1 >= 20 then 1 else s.rejections + 1) && t.rejectionTS == s.rejectionTS
  {
  }

  /** And a query starts a timeout, of sixty seconds, if and only if it is such a twentieth. */
  lemma TwentiethStartsTimeout(s: Limits, calls: seq<Call>, n: nat)
    requires 0 <= s.rejections <= 19 && n < |calls| && calls[n].Query?
    ensures After(s, calls, n + 1).timeoutEnd ==
            if Refused(s, calls, n) && Twentieth(InWindow(s, calls, n + 1)) then calls[n].bucketAt + 60.0
            else After(s, calls, n).timeoutEnd
  {
    CounterCountsRefusals(s, calls, n);
    Grows(s, calls, n);
    CounterNext(InWindow(s, calls, n));
    var t := After(s, calls, n);
    assert After(s, calls, n + 1) == Dispatch(t, calls[n]).0;
  }

  // ---- Twenty queries at one moment ----

  ghost predicate AllAt(calls: seq<Call>, now: real) {
    forall i :: 0 <= i < |calls| ==> calls[i] == Query(now, now, now)
  }

  /** The bucket is dry then. */
  predicate Dry(s: Limits, now: real) {
    s.query.rate.Queries? && s.query.Level(now) < 1.0
  }

  /** The bucket is dry at that moment and stays so. */
  lemma {:induction false} AllRefused(s: Limits, now: real, calls: seq<Call>, n: nat)
    requires Dry(s, now) && n <= |calls|
    requires AllAt(calls, now)
    ensures Dry(After(s, calls, n), now)
    ensures n < |calls| ==> Refused(s, calls, n)
    ensures RefusedIn(s, calls, 0, n) == n
    decreases n
  {
    if n > 0 {
      AllRefused(s, now, calls, n - 1);
    }
  }

  lemma {:induction false} FirstOpens(s: Limits, now: real, calls: seq<Call>, n: nat)
    requires Dry(s, now) && 1 <= n <= |calls| && now > s.rejectionTS + 10.0
    requires AllAt(calls, now)
    ensures Opener(s, calls, n) == Some(0) && InWindow(s, calls, n) == n
    decreases n
  {
    AllRefused(s, now, calls, n);
    if n > 1 {
      FirstOpens(s, now, calls, n - 1);
    } else {
      AllRefused(s, now, calls, 0);
    }
  }

  /** With a dry bucket and no window open, nineteen queries at one moment leave the timeout as it
      is and the twentieth starts one. */
  lemma TwentyQueries(s: Limits, now: real, calls: seq<Call>)
    requires 0 <= s.rejections <= 19 && Dry(s, now) && now > s.rejectionTS + 10.0
    requires |calls| == 20 && AllAt(calls, now)
    ensures forall n :: 0 <= n <= 19 ==> After(s, calls, n).timeoutEnd == s.timeoutEnd
    ensures After(s, calls, 20).timeoutEnd == now + 60.0
  {
    SameTimeout(s, now, calls, 19);
    TwentiethStartsTimeout(s, calls, 19);
    AllRefused(s, now, calls, 19);
    FirstOpens(s, now, calls, 20);
    forall n | 0 <= n <= 19 ensures After(s, calls, n).timeoutEnd == s.timeoutEnd {
      SameTimeout(s, now, calls, n);
    }
  }

  lemma NotYetTwentieth(s: Limits, now: real, calls: seq<Call>, n: nat)
    requires 0 <= s.rejections <= 19 && Dry(s, now) && now > s.rejectionTS + 10.0
    requires n < 19 && n < |calls| && AllAt(calls, now)
    ensures After(s, calls, n + 1).timeoutEnd == After(s, calls, n).timeoutEnd
  {
    FirstOpens(s, now, calls, n + 1);
    TwentiethStartsTimeout(s, calls, n);
  }

  lemma {:induction false} SameTimeout(s: Limits, now: real, calls: seq<Call>, n: nat)
    requires 0 <= s.rejections <= 19 && Dry(s, now) && now > s.rejectionTS + 10.0
    requires n <= 19 && n <= |calls| && AllAt(calls, now)
    ensures After(s, calls, n).timeoutEnd == s.timeoutEnd
    decreases n
  {
    if n > 0 {
      SameTimeout(s, now, calls, n - 1);
      NotYetTwentieth(s, now, calls, n - 1);
    }
  }
}
