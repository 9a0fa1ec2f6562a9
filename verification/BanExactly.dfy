/** When the tenth violation bans: the exact condition, over every continuation of a timeout. */
module BanExactly {
  import TokenBucket
  import opened RateLimit

  // ---- Clocks ----

  function First(c: Call): real {
    match c
    case Query(bucketAt, _, _) => bucketAt
    case Command(checkAt, _) => checkAt
  }

  function Last(c: Call): real {
    match c
    case Query(_, _, checkAt) => checkAt
    case Command(_, bucketAt) => bucketAt
  }

  predicate InOrder(c: Call) {
    match c
    case Query(bucketAt, windowAt, checkAt) => bucketAt <= windowAt <= checkAt
    case Command(checkAt, bucketAt) => checkAt <= bucketAt
  }

  /** The last reading before call n. */
  function Clock(start: real, calls: seq<Call>, n: nat): real
    requires n <= |calls|
  {
    if n == 0 then start else Last(calls[n - 1])
  }

  /** From start on the clock of the connection does not go back. */
  ghost predicate Forward(start: real, calls: seq<Call>) {
    forall i :: 0 <= i < |calls| ==> Clock(start, calls, i) <= First(calls[i]) && InOrder(calls[i])
  }

  /** Every timeout check reads a time before the end of the timeout. */
  ghost predicate ChecksBelow(s: Limits, calls: seq<Call>) {
    forall i :: 0 <= i < |calls| ==> calls[i].checkAt < After(s, calls, i).timeoutEnd
  }

  lemma {:induction false} EndIsNear(s: Limits, start: real, calls: seq<Call>, n: nat)
    requires Forward(start, calls) && s.timeoutEnd <= start + 60.0 && n <= |calls|
    ensures After(s, calls, n).timeoutEnd <= Clock(start, calls, n) + 60.0
    decreases n
  {
    if n > 0 {
      EndIsNear(s, start, calls, n - 1);
      assert Clock(start, calls, n - 1) <= First(calls[n - 1]) && InOrder(calls[n - 1]);
    }
  }

  /** On a clock that does not go back, checks before the end keep a timeout active. */
  lemma ClockKeepsTimeout(s: Limits, start: real, calls: seq<Call>)
    requires Forward(start, calls) && s.timeoutEnd <= start + 60.0 && ChecksBelow(s, calls)
    ensures TimedOutThroughout(s, calls)
  {
    forall i | 0 <= i < |calls|
      ensures IsViolation(OutcomeOf(s, calls, i)) || (calls[i].Query? && OutcomeOf(s, calls, i) == Served)
    {
      EndIsNear(s, start, calls, i);
      assert Clock(start, calls, i) <= First(calls[i]) && InOrder(calls[i]);
      assert calls[i].checkAt < After(s, calls, i).timeoutEnd;
    }
  }

  // ---- At ten ----

  /** Calls during one timeout, up to the ban if there is one. */
  ghost predicate Continues(s: Limits, start: real, calls: seq<Call>) {
    Forward(start, calls) && TimedOutThroughout(s, calls) && BanOnlyLast(s, calls)
  }

  ghost predicate AtTen(s: Limits, calls: seq<Call>, n: nat)
    requires n < |calls|
  {
    IsViolation(OutcomeOf(s, calls, n)) ==> (OutcomeOf(s, calls, n) == Banned <==> Violations(s, calls, n + 1) == 10)
  }

  /** What the documentation promises: the tenth violation bans, and no other. */
  ghost predicate BansAtTen(s: Limits, start: real) {
    forall calls, n :: Continues(s, start, calls) && 0 <= n < |calls| ==> AtTen(s, calls, n)
  }

  /** The guard, readable off the player: fewer than ten rejections in the open window. */
  predicate FewRejections(s: Limits, now: real) {
    s.rejections <= 9 || now > s.rejectionTS + 10.0
  }

  ghost predicate Even(s: Limits, violations: nat, now: real) {
    s.actions == violations && (s.rejections <= 9 + s.actions || now > s.rejectionTS + 10.0)
  }

  lemma EvenStep(s: Limits, c: Call, violations: nat, now: real)
    requires Even(s, violations, now) && s.actions <= 9 && now <= First(c) && InOrder(c)
    requires var o := Dispatch(s, c).1; IsViolation(o) || (c.Query? && o == Served)
    ensures var (t, o) := Dispatch(s, c);
      && Even(t, violations + (if IsViolation(o) then 1 else 0), Last(c))
      && (IsViolation(o) ==> (o == Banned <==> violations + 1 == 10))
  {
  }

  ghost predicate EvenAt(s: Limits, start: real, calls: seq<Call>, n: nat)
    requires n <= |calls|
  {
    && Even(After(s, calls, n), Violations(s, calls, n), Clock(start, calls, n))
    && ((n > 0 && OutcomeOf(s, calls, n - 1) == Banned) || After(s, calls, n).actions <= 9)
    && (n > 0 ==> AtTen(s, calls, n - 1))
  }

  lemma EvenNext(s: Limits, start: real, calls: seq<Call>, n: nat)
    requires n < |calls| && Even(After(s, calls, n), Violations(s, calls, n), Clock(start, calls, n))
    requires After(s, calls, n).actions <= 9 && Clock(start, calls, n) <= First(calls[n]) && InOrder(calls[n])
    requires var o := OutcomeOf(s, calls, n); IsViolation(o) || (calls[n].Query? && o == Served)
    ensures EvenAt(s, start, calls, n + 1)
  {
    EvenStep(After(s, calls, n), calls[n], Violations(s, calls, n), Clock(start, calls, n));
    NotYetTen(After(s, calls, n), calls[n]);
  }

  lemma EvenOngoing(s: Limits, start: real, calls: seq<Call>, n: nat)
    requires Continues(s, start, calls) && n < |calls| && EvenAt(s, start, calls, n)
    ensures After(s, calls, n).actions <= 9 && Clock(start, calls, n) <= First(calls[n]) && InOrder(calls[n])
    ensures var o := OutcomeOf(s, calls, n); IsViolation(o) || (calls[n].Query? && o == Served)
  {
    OngoingAt(s, calls, n);
    if n > 0 {
      OngoingAt(s, calls, n - 1);
    }
  }

  lemma {:induction false} StaysEven(s: Limits, start: real, calls: seq<Call>, n: nat)
    requires s.actions == 0 && FewRejections(s, start) && Continues(s, start, calls) && n <= |calls|
    ensures EvenAt(s, start, calls, n)
    decreases n
  {
    if n > 0 {
      StaysEven(s, start, calls, n - 1);
      EvenOngoing(s, start, calls, n - 1);
      EvenNext(s, start, calls, n - 1);
    }
  }

  // ---- Past ten ----

  /** Calls made at one moment, none of them the ban and none outside the timeout. */
  ghost predicate Quiet(s: Limits, now: real, calls: seq<Call>) {
    forall i :: 0 <= i < |calls| ==> QuietCall(s, now, calls, i)
  }

  ghost predicate QuietCall(s: Limits, now: real, calls: seq<Call>, i: nat)
    requires i < |calls|
  {
    && (calls[i] == Query(now, now, now) || calls[i] == Command(now, now))
    && (OutcomeOf(s, calls, i) == Strike || (calls[i].Query? && OutcomeOf(s, calls, i) == Served))
  }

  ghost predicate Passes(s: Limits, now: real, calls: seq<Call>, t: Limits, violations: nat) {
    Costs(s, calls, t, violations) && Quiet(s, now, calls)
  }

  lemma ThenPasses(s: Limits, now: real, a: seq<Call>, t: Limits, v: nat, b: seq<Call>, u: Limits, w: nat)
    requires Passes(s, now, a, t, v) && Passes(t, now, b, u, w)
    ensures Passes(s, now, a + b, u, v + w)
  {
    ThenCosts(s, a, t, v, b, u, w);
    forall i | 0 <= i < |a + b| ensures QuietCall(s, now, a + b, i) {
      if i < |a| {
        AfterPrefix(s, a, b, i);
        assert QuietCall(s, now, a, i);
      } else {
        AfterConcat(s, a, b, i - |a|);
        assert QuietCall(t, now, b, i - |a|);
      }
    }
  }

  lemma OnePasses(s: Limits, now: real, c: Call)
    requires c == Query(now, now, now) || c == Command(now, now)
    requires var o := Dispatch(s, c).1; o == Strike || (c.Query? && o == Served)
    ensures Passes(s, now, [c], Dispatch(s, c).0, if Dispatch(s, c).1 == Strike then 1 else 0)
  {
    OneCall(s, c);
    assert After(s, [c], 0) == s;
  }

  lemma NonePass(s: Limits, now: real)
    ensures Passes(s, now, [], s, 0)
  {
  }

  /** Served queries cost nothing and leave the bucket dry. */
  lemma {:induction false} Drain(s: Limits, now: real) returns (calls: seq<Call>, t: Limits)
    requires s.query.rate == TokenBucket.Queries
    ensures Passes(s, now, calls, t, 0) && t == s.(query := t.query)
    ensures t.query.rate == TokenBucket.Queries && t.query.Level(now) < 1.0
    decreases s.query.Level(now).Floor + 1
  {
    if s.query.Level(now) < 1.0 {
      calls, t := [], s;
      NonePass(s, now);
    } else {
      var q := Query(now, now, now);
      var u := Dispatch(s, q).0;
      OnePasses(s, now, q);
      var rest: seq<Call>;
      rest, t := Drain(u, now);
      ThenPasses(s, now, [q], u, 0, rest, t, 0);
      calls := [q] + rest;
    }
  }

  lemma {:induction false} Strikes(s: Limits, now: real, n: nat) returns (calls: seq<Call>)
    requires now < s.timeoutEnd && s.actions + n <= 9
    ensures Passes(s, now, calls, s.(actions := s.actions + n), n)
    decreases n
  {
    if n == 0 {
      calls := [];
      NonePass(s, now);
    } else {
      var c := Command(now, now);
      var u := s.(actions := s.actions + 1);
      OnePasses(s, now, c);
      var rest := Strikes(u, now, n - 1);
      ThenPasses(s, now, [c], u, 1, rest, u.(actions := u.actions + (n - 1)), n - 1);
      calls := [c] + rest;
    }
  }

  /** What a dry bucket stays: asked again at the same time it is as dry. */
  ghost predicate Dry(s: Limits, now: real) {
    s.query.rate == TokenBucket.Queries && s.query.Level(now) < 1.0
  }

  lemma {:induction false} Rejections(s: Limits, now: real, n: nat) returns (calls: seq<Call>, t: Limits)
    requires Dry(s, now) && now < s.timeoutEnd && now <= s.rejectionTS + 10.0
    requires s.actions + n <= 9 && s.rejections + n <= 19
    ensures Passes(s, now, calls, t, n) && Dry(t, now)
    ensures t == s.(query := t.query, actions := s.actions + n, rejections := s.rejections + n)
    decreases n
  {
    if n == 0 {
      calls, t := [], s;
      NonePass(s, now);
    } else {
      var q := Query(now, now, now);
      var u := Dispatch(s, q).0;
      OnePasses(s, now, q);
      var rest: seq<Call>;
      rest, t := Rejections(u, now, n - 1);
      ThenPasses(s, now, [q], u, 1, rest, t, n - 1);
      calls := [q] + rest;
    }
  }

  /** The query that is the twentieth rejection clears the strikes. */
  lemma Twentieth(s: Limits, now: real) returns (t: Limits)
    requires Dry(s, now) && now < s.timeoutEnd && now <= s.rejectionTS + 10.0 && s.rejections == 19
    ensures var q := Query(now, now, now);
      Dispatch(s, q) == (t, Strike) && Passes(s, now, [q], t, 1) && t.actions == 1 && t.banned == s.banned
  {
    var q := Query(now, now, now);
    t := Dispatch(s, q).0;
    OnePasses(s, now, q);
  }

  lemma NinePass(s: Limits, now: real) returns (calls: seq<Call>, t: Limits)
    requires s.actions == 0 && 10 <= s.rejections <= 19 && now <= s.rejectionTS + 10.0
    requires now < s.timeoutEnd && s.query.rate == TokenBucket.Queries
    ensures Passes(s, now, calls, t, 9) && Dry(t, now)
    ensures t == s.(query := t.query, actions := 9, rejections := 19)
  {
    var a, s1 := Drain(s, now);
    var r := s.rejections;
    var b := Strikes(s1, now, r - 10);
    var s2 := s1.(actions := r - 10);
    ThenPasses(s, now, a, s1, 0, b, s2, r - 10);
    var c;
    c, t := Rejections(s2, now, 19 - r);
    ThenPasses(s, now, a + b, s2, r - 10, c, t, 19 - r);
    calls := a + b + c;
  }

  /** With ten rejections or more in the open window: commands up to ten violations short of
      the twentieth rejection, queries from there, and the tenth violation clears the strikes
      instead of banning. */
  lemma TenPass(s: Limits, now: real) returns (calls: seq<Call>)
    requires s.actions == 0 && 10 <= s.rejections <= 19 && now <= s.rejectionTS + 10.0
    requires now < s.timeoutEnd && s.query.rate == TokenBucket.Queries
    ensures Quiet(s, now, calls) && Violations(s, calls, |calls|) == 10
    ensures calls != [] && OutcomeOf(s, calls, |calls| - 1) == Strike
  {
    var nine, u := NinePass(s, now);
    var q := Query(now, now, now);
    var t := Twentieth(u, now);
    ThenPasses(s, now, nine, u, 9, [q], t, 1);
    calls := nine + [q];
    AfterPrefix(s, nine, [q], |nine|);
  }

  lemma PassingContinues(s: Limits, now: real, calls: seq<Call>)
    requires Quiet(s, now, calls)
    ensures Continues(s, now, calls)
  {
    forall i | 0 <= i < |calls|
      ensures Clock(now, calls, i) <= First(calls[i]) && InOrder(calls[i])
      ensures IsViolation(OutcomeOf(s, calls, i)) || (calls[i].Query? && OutcomeOf(s, calls, i) == Served)
      ensures OutcomeOf(s, calls, i) != Banned
    {
      assert QuietCall(s, now, calls, i);
      assert i > 0 ==> QuietCall(s, now, calls, i - 1);
    }
  }

  /** The exact condition: whatever the player goes on to send, the tenth violation bans and
      no other, if and only if fewer than ten rejections stand in an open window when the
      timeout starts. */
  lemma TenExactly(s: Limits, start: real)
    requires s.actions == 0 && s.rejections <= 19
    requires start < s.timeoutEnd && s.query.rate == TokenBucket.Queries
    ensures BansAtTen(s, start) <==> FewRejections(s, start)
  {
    if FewRejections(s, start) {
      forall calls, n | Continues(s, start, calls) && 0 <= n < |calls| ensures AtTen(s, calls, n) {
        StaysEven(s, start, calls, n + 1);
      }
    } else {
      var calls := TenPass(s, start);
      PassingContinues(s, start, calls);
      assert !AtTen(s, calls, |calls| - 1);
    }
  }

  // ---- For every history of a player ----

  lemma {:induction false} QueryRate(zero: real, calls: seq<Call>, n: nat)
    requires n <= |calls|
    ensures After(NewPlayer(zero), calls, n).query.rate == TokenBucket.Queries
    decreases n
  {
    if n > 0 {
      QueryRate(zero, calls, n - 1);
    }
  }

  lemma TimesOut(s: Limits, c: Call)
    requires Dispatch(s, c).1 == TimedOut
    ensures Last(c) < Dispatch(s, c).0.timeoutEnd
  {
  }

  /** Whenever the command bucket starts a timeout, in any history, the promise about the
      tenth violation holds exactly when the player's counters pass the guard. */
  lemma TimeoutBansAtTenExactly(zero: real, calls: seq<Call>, n: nat)
    requires n < |calls| && OutcomeOf(NewPlayer(zero), calls, n) == TimedOut
    ensures var s := After(NewPlayer(zero), calls, n + 1);
      BansAtTen(s, Last(calls[n])) <==> FewRejections(s, Last(calls[n]))
  {
    TimeoutStart(zero, calls, n);
    QueryRate(zero, calls, n + 1);
    TimesOut(After(NewPlayer(zero), calls, n), calls[n]);
    TenExactly(After(NewPlayer(zero), calls, n + 1), Last(calls[n]));
  }
}
