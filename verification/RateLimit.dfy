/** The timeout, strike and ban machine of one logged-in player, driven by the order of the
    checks in the command dispatcher. */
module RateLimit {
  import opened TokenBucket

  datatype Limits = Limits(
    main: Bucket, query: Bucket,
    timeoutEnd: real, actions: int,
    rejections: int, rejectionTS: real,
    banned: bool)

  /** One command with the clock readings it makes. A query reads the clock for its bucket,
      when it opens a rejection window, and for the timeout check; any other command for
      the timeout check and for its bucket. */
  datatype Call =
    | Query(bucketAt: real, windowAt: real, checkAt: real)
    | Command(checkAt: real, bucketAt: real)

  datatype Outcome =
    | Served
    | Warned        // query rejected, no timeout running
    | TimedOut      // the command bucket ran dry: a timeout starts
    | Strike        // rejected while timed out
    | Banned        // the strike that closes the connection

  function OnTimeout(s: Limits, now: real): bool {
    now < s.timeoutEnd
  }

  function Punish(s: Limits): (Limits, Outcome) {
    var t := s.(actions := s.actions + 1);
    if t.actions < 10 then (t, Strike) else (t.(banned := true), Banned)
  }

  function Reject(s: Limits, now: real, windowAt: real): Limits {
    var t := if now > s.rejectionTS + 10.0 then s.(rejectionTS := windowAt, rejections := 1)
             else s.(rejections := s.rejections + 1);
    if t.rejections >= 20 then t.(timeoutEnd := now + 60.0, actions := 0, rejections := 1) else t
  }

  function Dispatch(s: Limits, c: Call): (Limits, Outcome) {
    match c
    case Query(bucketAt, windowAt, checkAt) =>
      var (bucket, ok) := s.query.Take(bucketAt);
      var t := s.(query := bucket);
      if ok then (t, Served)
      else
        var u := Reject(t, bucketAt, windowAt);
        if OnTimeout(u, checkAt) then Punish(u) else (u, Warned)
    case Command(checkAt, bucketAt) =>
      if OnTimeout(s, checkAt) then Punish(s)
      else
        var (bucket, ok) := s.main.Take(bucketAt);
        var t := s.(main := bucket);
        if ok then (t, Served) else (t.(timeoutEnd := bucketAt + 60.0, actions := 0), TimedOut)
  }

  /** The player fields the three handlers update. */
  class Player {
    const mainBucket: Throttle
    const queryBucket: Throttle
    var timeoutEnd: real
    var timeoutActions: int
    var rejectionCount: int
    var rejectionTS: real
    var softbanned: bool

    constructor (zeroTime: real)
      ensures fresh(mainBucket) && fresh(queryBucket) && Valid()
      ensures State() == NewPlayer(zeroTime)
    {
      mainBucket := new Throttle(Commands, zeroTime);
      queryBucket := new Throttle(Queries, zeroTime);
      timeoutEnd, timeoutActions := zeroTime, 0;
      rejectionCount, rejectionTS := 0, zeroTime;
      softbanned := false;
    }

    ghost predicate Valid() {
      mainBucket != queryBucket
    }

    function State(): Limits
      reads this, mainBucket, queryBucket
    {
      Limits(mainBucket.State(), queryBucket.State(), timeoutEnd, timeoutActions, rejectionCount, rejectionTS, softbanned)
    }

    method HandleQueryBucket(now: real, windowAt: real) returns (ok: bool)
      requires Valid()
      modifies this`timeoutEnd, this`timeoutActions, this`rejectionCount, this`rejectionTS, queryBucket
      ensures ok == old(State()).query.Take(now).1
      ensures var t := old(State()).(query := old(State()).query.Take(now).0);
              State() == if ok then t else Reject(t, now, windowAt)
    {
      ok := queryBucket.TryTake(now);
      if ok {
        return;
      }
      if now > rejectionTS + 10.0 {
        rejectionTS := windowAt;
        rejectionCount := 1;
      } else {
        rejectionCount := rejectionCount + 1;
      }
      if rejectionCount >= 20 {
        timeoutEnd := now + 60.0;
        timeoutActions := 0;
        rejectionCount := 1;
      }
    }

    method HandleTimeoutBucket(now: real) returns (ok: bool)
      requires Valid()
      modifies this`timeoutEnd, this`timeoutActions, mainBucket
      ensures ok == old(State()).main.Take(now).1
      ensures var t := old(State()).(main := old(State()).main.Take(now).0);
              State() == if ok then t else t.(timeoutEnd := now + 60.0, actions := 0)
    {
      ok := mainBucket.TryTake(now);
      if ok {
        return;
      }
      timeoutEnd := now + 60.0;
      timeoutActions := 0;
    }

    method HandleSoftban() returns (o: Outcome)
      modifies this`timeoutActions, this`softbanned
      ensures (State(), o) == Punish(old(State()))
    {
      timeoutActions := timeoutActions + 1;
      if timeoutActions < 10 {
        return Strike;
      }
      softbanned := true;
      return Banned;
    }

    /** The rate-limit part of dispatching one command. */
    method CommandDispatch(c: Call) returns (o: Outcome)
      requires Valid()
      modifies this, mainBucket, queryBucket
      ensures (State(), o) == Dispatch(old(State()), c)
    {
      match c {
        case Query(bucketAt, windowAt, checkAt) =>
          var ok := HandleQueryBucket(bucketAt, windowAt);
          if !ok {
            if checkAt < timeoutEnd {
              o := HandleSoftban();
              return;
            }
            return Warned;
          }
          return Served;
        case Command(checkAt, bucketAt) =>
          if checkAt < timeoutEnd {
            o := HandleSoftban();
            return;
          }
          var ok := HandleTimeoutBucket(bucketAt);
          return if ok then Served else TimedOut;
      }
    }
  }

  function NewPlayer(zeroTime: real): Limits {
    Limits(Bucket(Commands, 0.0, zeroTime), Bucket(Queries, 0.0, zeroTime), zeroTime, 0, 0, zeroTime, false)
  }

  // ---- Runs ----

  /** The state after the first n calls. */
  function After(s: Limits, calls: seq<Call>, n: nat): Limits
    requires n <= |calls|
    decreases n
  {
    if n == 0 then s else Dispatch(After(s, calls, n - 1), calls[n - 1]).0
  }

  function OutcomeOf(s: Limits, calls: seq<Call>, n: nat): Outcome
    requires n < |calls|
  {
    Dispatch(After(s, calls, n), calls[n]).1
  }

  predicate IsViolation(o: Outcome) {
    o == Strike || o == Banned
  }

  function Violations(s: Limits, calls: seq<Call>, n: nat): nat
    requires n <= |calls|
    decreases n
  {
    if n == 0 then 0 else Violations(s, calls, n - 1) + (if IsViolation(OutcomeOf(s, calls, n - 1)) then 1 else 0)
  }

  /** No call finds the timeout over: nothing but answered queries and violations. */
  ghost predicate TimedOutThroughout(s: Limits, calls: seq<Call>) {
    forall i :: 0 <= i < |calls| ==>
      IsViolation(OutcomeOf(s, calls, i)) || (calls[i].Query? && OutcomeOf(s, calls, i) == Served)
  }

  /** The connection is closed by the first ban, so only the last call can be one. */
  ghost predicate BanOnlyLast(s: Limits, calls: seq<Call>) {
    forall i :: 0 <= i < |calls| - 1 ==> OutcomeOf(s, calls, i) != Banned
  }

  /** The rejection counter never stands at 20 or more between calls. */
  lemma {:induction false} RejectionsBelow20(zero: real, calls: seq<Call>, n: nat)
    requires n <= |calls|
    ensures 0 <= After(NewPlayer(zero), calls, n).rejections <= 19
    decreases n
  {
    if n == 0 {
    } else {
      RejectionsBelow20(zero, calls, n - 1);
    }
  }

  /** The call is the twentieth rejected query of its window: it restarts the timeout and
      clears the strikes. */
  predicate IsReset(s: Limits, c: Call) {
    c.Query? && !s.query.Take(c.bucketAt).1 && c.bucketAt <= s.rejectionTS + 10.0 && s.rejections + 1 >= 20
  }

  function Resets(s: Limits, calls: seq<Call>, n: nat): nat
    requires n <= |calls|
    decreases n
  {
    if n == 0 then 0 else Resets(s, calls, n - 1) + (if IsReset(After(s, calls, n - 1), calls[n - 1]) then 1 else 0)
  }

  /** Strikes against violations since the timeout began: equal until the query bucket
      resets them, which leaves too few rejections for a second reset before the ban. */
  ghost predicate Counting(s: Limits, violations: nat, resets: nat) {
    || (resets == 0 && s.actions == violations && s.rejections <= 19)
    || (resets == 1 && 1 <= s.actions <= violations <= s.actions + 9 && s.rejections <= s.actions)
  }

  lemma CountingStep(s: Limits, c: Call, violations: nat, resets: nat)
    requires Counting(s, violations, resets) && s.actions <= 9
    requires var o := Dispatch(s, c).1; IsViolation(o) || (c.Query? && o == Served)
    ensures var (t, o) := Dispatch(s, c);
      && Counting(t, violations + (if IsViolation(o) then 1 else 0), resets + (if IsReset(s, c) then 1 else 0))
      && t.actions <= 10 && (o == Banned <==> IsViolation(o) && t.actions == 10)
  {
  }

  lemma OngoingAt(s: Limits, calls: seq<Call>, n: nat)
    requires TimedOutThroughout(s, calls) && BanOnlyLast(s, calls) && n < |calls|
    ensures var o := OutcomeOf(s, calls, n);
      (IsViolation(o) || (calls[n].Query? && o == Served)) && (n + 1 < |calls| ==> o != Banned)
  {
  }

  ghost predicate CountedAt(s: Limits, calls: seq<Call>, n: nat)
    requires n <= |calls|
  {
    && Counting(After(s, calls, n), Violations(s, calls, n), Resets(s, calls, n))
    && After(s, calls, n).actions <= (if n > 0 && OutcomeOf(s, calls, n - 1) == Banned then 10 else 9)
    && (n > 0 && OutcomeOf(s, calls, n - 1) == Banned ==> After(s, calls, n).actions == 10)
  }

  lemma CountingNext(s: Limits, calls: seq<Call>, n: nat)
    requires n < |calls| && CountedAt(s, calls, n) && After(s, calls, n).actions <= 9
    requires var o := OutcomeOf(s, calls, n); IsViolation(o) || (calls[n].Query? && o == Served)
    ensures CountedAt(s, calls, n + 1)
  {
    CountingStep(After(s, calls, n), calls[n], Violations(s, calls, n), Resets(s, calls, n));
    NotYetTen(After(s, calls, n), calls[n]);
  }

  /** While one timeout stays active there is at most one reset, and strikes and violations
      stay in step around it. */
  lemma {:induction false} KeepsCounting(s: Limits, calls: seq<Call>, n: nat)
    requires s.actions == 0 && s.rejections <= 19
    requires TimedOutThroughout(s, calls) && BanOnlyLast(s, calls) && n <= |calls|
    ensures Resets(s, calls, n) <= 1 && CountedAt(s, calls, n)
    decreases n
  {
    if n > 0 {
      KeepsCounting(s, calls, n - 1);
      OngoingAt(s, calls, n - 1);
      if n > 1 {
        OngoingAt(s, calls, n - 2);
      }
      CountingNext(s, calls, n - 1);
    }
  }

  /** A call that is not the ban leaves fewer than ten strikes. */
  lemma NotYetTen(s: Limits, c: Call)
    requires s.actions <= 9
    ensures Dispatch(s, c).1 != Banned ==> Dispatch(s, c).0.actions <= 9
  {
  }

  /** While one timeout stays active the ban comes no earlier than the 10th violation. */
  lemma NoEarlyBan(s: Limits, calls: seq<Call>, n: nat)
    requires s.actions == 0 && s.rejections <= 19 && TimedOutThroughout(s, calls) && BanOnlyLast(s, calls)
    requires n < |calls| && OutcomeOf(s, calls, n) == Banned
    ensures 10 <= Violations(s, calls, n + 1) <= 19
  {
    KeepsCounting(s, calls, n + 1);
  }

  /** ... and no later than the 19th. */
  lemma NoLateBan(s: Limits, calls: seq<Call>)
    requires s.actions == 0 && s.rejections <= 19 && TimedOutThroughout(s, calls) && BanOnlyLast(s, calls)
    requires |calls| > 0 && Violations(s, calls, |calls|) >= 19 && IsViolation(OutcomeOf(s, calls, |calls| - 1))
    ensures OutcomeOf(s, calls, |calls| - 1) == Banned
  {
    KeepsCounting(s, calls, |calls|);
  }

  /** What a timeout starts with, for any player and any history. */
  lemma TimeoutStart(zero: real, calls: seq<Call>, n: nat)
    requires n < |calls| && OutcomeOf(NewPlayer(zero), calls, n) == TimedOut
    ensures After(NewPlayer(zero), calls, n + 1).actions == 0
    ensures After(NewPlayer(zero), calls, n + 1).rejections <= 19
    ensures calls[n].Command? && After(NewPlayer(zero), calls, n + 1).timeoutEnd == calls[n].bucketAt + 60.0
  {
    RejectionsBelow20(zero, calls, n + 1);
  }

  /** A timeout that the query bucket starts counts the query that starts it, and then
      bans at exactly the tenth violation: the reset has just been spent. */
  lemma {:induction false} QueryTimeoutBansAtTen(s: Limits, calls: seq<Call>, n: nat)
    requires s.actions == 1 && s.rejections == 1
    requires TimedOutThroughout(s, calls) && BanOnlyLast(s, calls) && n <= |calls|
    ensures var t := After(s, calls, n); t.actions == 1 + Violations(s, calls, n) && t.rejections <= t.actions
    ensures n < |calls| ==> After(s, calls, n).actions <= 9
    ensures n > 0 && IsViolation(OutcomeOf(s, calls, n - 1)) ==>
              (OutcomeOf(s, calls, n - 1) == Banned <==> 1 + Violations(s, calls, n) == 10)
    decreases n
  {
    if n == 0 {
    } else {
      QueryTimeoutBansAtTen(s, calls, n - 1);
      var t, c := After(s, calls, n - 1), calls[n - 1];
      var (t', o) := Dispatch(t, c);
      assert o == OutcomeOf(s, calls, n - 1);
      assert n - 1 < |calls| - 1 ==> o != Banned;
    }
  }

  /** And that is how every such timeout starts, for any player and any history: the query that
      starts it leaves one rejection and, checked before the new end, one strike, its own. */
  lemma QueryTimeoutStart(zero: real, calls: seq<Call>, n: nat)
    requires n < |calls| && calls[n].Query?
    ensures var s, t := After(NewPlayer(zero), calls, n), After(NewPlayer(zero), calls, n + 1);
      if IsReset(s, calls[n]) then
        && t.rejections == 1 && t.timeoutEnd == calls[n].bucketAt + 60.0
        && (if OnTimeout(t, calls[n].checkAt) then OutcomeOf(NewPlayer(zero), calls, n) == Strike && t.actions == 1
            else OutcomeOf(NewPlayer(zero), calls, n) == Warned && t.actions == 0)
      else t.timeoutEnd == s.timeoutEnd
  {
    RejectionsBelow20(zero, calls, n);
    assert After(NewPlayer(zero), calls, n + 1) == Dispatch(After(NewPlayer(zero), calls, n), calls[n]).0;
  }

  /** So in every history a timeout started by the query bucket bans at its tenth violation. */
  lemma QueryTimeoutInHistory(zero: real, before: seq<Call>, q: Call, calls: seq<Call>, n: nat)
    requires q.Query? && IsReset(After(NewPlayer(zero), before, |before|), q)
    requires var s := Dispatch(After(NewPlayer(zero), before, |before|), q).0;
             OnTimeout(s, q.checkAt) && TimedOutThroughout(s, calls) && BanOnlyLast(s, calls)
    requires n < |calls|
    ensures var s := Dispatch(After(NewPlayer(zero), before, |before|), q).0;
      IsViolation(OutcomeOf(s, calls, n)) ==>
        (OutcomeOf(s, calls, n) == Banned <==> 1 + Violations(s, calls, n + 1) == 10)
  {
    RejectionsBelow20(zero, before, |before|);
    var s := Dispatch(After(NewPlayer(zero), before, |before|), q).0;
    QueryTimeoutBansAtTen(s, calls, n + 1);
  }

  // ---- Both ends of the bound are reached ----

  function Times(c: Call, n: nat): (r: seq<Call>)
    ensures |r| == n && forall i :: 0 <= i < n ==> r[i] == c
  {
    seq(n, _ => c)
  }

  lemma {:induction false} AfterConcat(s: Limits, a: seq<Call>, b: seq<Call>, n: nat)
    requires n <= |b|
    ensures After(s, a + b, |a| + n) == After(After(s, a, |a|), b, n)
    ensures Violations(s, a + b, |a| + n) == Violations(s, a, |a|) + Violations(After(s, a, |a|), b, n)
    decreases n
  {
    if n == 0 {
      AfterPrefix(s, a, b, |a|);
    } else {
      AfterConcat(s, a, b, n - 1);
    }
  }

  lemma {:induction false} AfterPrefix(s: Limits, a: seq<Call>, b: seq<Call>, n: nat)
    requires n <= |a|
    ensures After(s, a + b, n) == After(s, a, n) && Violations(s, a + b, n) == Violations(s, a, n)
    decreases n
  {
    if n == 0 {
    } else {
      AfterPrefix(s, a, b, n - 1);
    }
  }

  /** A timed-out player with a dry query bucket whose next rejection is the twentieth:
      nine commands, one query, nine commands. */
  lemma {:induction false} CommandStrikes(s: Limits, now: real, n: nat)
    requires now < s.timeoutEnd && s.actions + n <= 9
    ensures var calls := Times(Command(now, now), n);
            After(s, calls, n) == s.(actions := s.actions + n) && Violations(s, calls, n) == n
    decreases n
  {
    if n == 0 {
    } else {
      CommandStrikes(s, now, n - 1);
      var c := Command(now, now);
      assert Times(c, n) == Times(c, n - 1) + [c];
      AfterPrefix(s, Times(c, n - 1), [c], n - 1);
    }
  }

  lemma ResetStrike(s: Limits, now: real)
    requires s.rejections == 19 && !s.banned && s.query.Level(now) < 1.0 && now <= s.rejectionTS + 10.0
    ensures var (t, o) := Dispatch(s, Query(now, now, now));
            o == Strike && t.actions == 1 && t.rejections == 1 && now < t.timeoutEnd && !t.banned
  {
  }

  lemma OneCall(s: Limits, c: Call)
    ensures After(s, [c], 1) == Dispatch(s, c).0
    ensures Violations(s, [c], 1) == if IsViolation(Dispatch(s, c).1) then 1 else 0
  {
    assert After(s, [c], 0) == s;
  }

  /** The calls lead from one state to the other with so many violations. */
  ghost predicate Costs(s: Limits, calls: seq<Call>, t: Limits, violations: nat) {
    After(s, calls, |calls|) == t && Violations(s, calls, |calls|) == violations
  }

  lemma ThenCosts(s: Limits, a: seq<Call>, t: Limits, v: nat, b: seq<Call>, u: Limits, w: nat)
    requires Costs(s, a, t, v) && Costs(t, b, u, w)
    ensures Costs(s, a + b, u, v + w)
  {
    AfterConcat(s, a, b, |b|);
  }

  /** Nine commands, and the query that is the twentieth rejection. */
  lemma TenCleared(s: Limits, now: real) returns (calls: seq<Call>, t: Limits)
    requires s.actions == 0 && s.rejections == 19 && !s.banned
    requires now < s.timeoutEnd && s.query.Level(now) < 1.0 && now <= s.rejectionTS + 10.0
    ensures |calls| == 10 && Costs(s, calls, t, 10) && t.actions == 1 && !t.banned && now < t.timeoutEnd
  {
    var nine, q := Times(Command(now, now), 9), Query(now, now, now);
    CommandStrikes(s, now, 9);
    var s1 := s.(actions := 9);
    t := Dispatch(s1, q).0;
    ResetStrike(s1, now);
    OneCall(s1, q);
    ThenCosts(s, nine, s1, 9, [q], t, 1);
    calls := nine + [q];
  }

  lemma EighteenPass(s: Limits, now: real) returns (calls: seq<Call>, t: Limits)
    requires s.actions == 0 && s.rejections == 19 && !s.banned
    requires now < s.timeoutEnd && s.query.Level(now) < 1.0 && now <= s.rejectionTS + 10.0
    ensures |calls| == 18 && Costs(s, calls, t, 18) && t.actions == 9 && !t.banned && now < t.timeoutEnd
  {
    var ten, u := TenCleared(s, now);
    var eight := Times(Command(now, now), 8);
    CommandStrikes(u, now, 8);
    t := u.(actions := 9);
    ThenCosts(s, ten, u, 10, eight, t, 8);
    calls := ten + eight;
  }

  lemma NineteenIsReached(s: Limits, now: real) returns (calls: seq<Call>)
    requires s.actions == 0 && s.rejections == 19 && !s.banned
    requires now < s.timeoutEnd && s.query.Level(now) < 1.0 && now <= s.rejectionTS + 10.0
    ensures |calls| == 19 && Violations(s, calls, 19) == 19 && After(s, calls, 19).banned
    ensures !After(s, calls, 18).banned
  {
    var most, t := EighteenPass(s, now);
    var c := Command(now, now);
    OneCall(t, c);
    ThenCosts(s, most, t, 18, [c], Dispatch(t, c).0, 1);
    AfterPrefix(s, most, [c], 18);
    calls := most + [c];
  }

  /** The same player who sends commands only is banned at the tenth. */
  lemma TenIsReached(s: Limits, now: real) returns (calls: seq<Call>)
    requires s.actions == 0 && !s.banned && now < s.timeoutEnd
    ensures |calls| == 10 && Violations(s, calls, 10) == 10 && After(s, calls, 10).banned
    ensures !After(s, calls, 9).banned
  {
    var c := Command(now, now);
    CommandStrikes(s, now, 9);
    var s1 := After(s, Times(c, 9), 9);
    assert After(s1, [c], 0) == s1;
    calls := Times(c, 9) + [c];
    AfterConcat(s, Times(c, 9), [c], 1);
    AfterPrefix(s, Times(c, 9), [c], 9);
  }

  // ---- A new player can bring about the state that needs nineteen ----

  lemma QueryServed(s: Limits, now: real)
    requires s.query.rate == Queries && s.query.last == now && 1.0 <= s.query.tokens <= 10.0
    ensures Dispatch(s, Query(now, now, now)) == (s.(query := s.query.(tokens := s.query.tokens - 1.0)), Served)
  {
  }

  lemma QueryWarned(s: Limits, now: real)
    requires s.query.rate == Queries && s.query.last == now && s.query.tokens == 0.0
    requires s.timeoutEnd <= now && s.rejectionTS == now && s.rejections < 19
    ensures Dispatch(s, Query(now, now, now)) == (s.(rejections := s.rejections + 1), Warned)
  {
  }

  lemma {:induction false} QueriesServed(s: Limits, now: real, n: nat)
    requires s.query.rate == Queries && s.query.last == now && n as real <= s.query.tokens <= 10.0
    ensures After(s, Times(Query(now, now, now), n), n) == s.(query := s.query.(tokens := s.query.tokens - n as real))
    decreases n
  {
    if n == 0 {
    } else {
      QueriesServed(s, now, n - 1);
      var c := Query(now, now, now);
      QueryServed(After(s, Times(c, n - 1), n - 1), now);
      AfterPrefix(s, Times(c, n - 1), [c], n - 1);
      assert Times(c, n) == Times(c, n - 1) + [c];
    }
  }

  lemma {:induction false} QueriesWarned(s: Limits, now: real, n: nat)
    requires s.query.rate == Queries && s.query.last == now && s.query.tokens == 0.0
    requires s.timeoutEnd <= now && s.rejectionTS == now && s.rejections + n <= 19
    ensures After(s, Times(Query(now, now, now), n), n) == s.(rejections := s.rejections + n)
    decreases n
  {
    if n == 0 {
    } else {
      QueriesWarned(s, now, n - 1);
      var c := Query(now, now, now);
      QueryWarned(After(s, Times(c, n - 1), n - 1), now);
      AfterPrefix(s, Times(c, n - 1), [c], n - 1);
      assert Times(c, n) == Times(c, n - 1) + [c];
    }
  }

  lemma {:induction false} CommandsServed(s: Limits, now: real, n: nat)
    requires s.main.rate == Commands && s.main.last == now && n as real <= s.main.tokens <= 12.0 && s.timeoutEnd <= now
    ensures After(s, Times(Command(now, now), n), n) == s.(main := s.main.(tokens := s.main.tokens - n as real))
    decreases n
  {
    if n == 0 {
    } else {
      CommandsServed(s, now, n - 1);
      var c := Command(now, now);
      AfterPrefix(s, Times(c, n - 1), [c], n - 1);
      assert Times(c, n) == Times(c, n - 1) + [c];
    }
  }

  ghost predicate Leads(s: Limits, calls: seq<Call>, t: Limits) {
    After(s, calls, |calls|) == t
  }

  lemma ThenLeads(s: Limits, a: seq<Call>, t: Limits, b: seq<Call>, u: Limits)
    requires Leads(s, a, t) && Leads(t, b, u)
    ensures Leads(s, a + b, u)
  {
    AfterConcat(s, a, b, |b|);
  }

  lemma CallLeads(s: Limits, c: Call)
    ensures Leads(s, [c], Dispatch(s, c).0)
  {
    assert After(s, [c], 0) == s;
  }

  /** A query first, which fills the bucket, and the same query again n times. */
  lemma DrainQueries(zero: real, now: real) returns (calls: seq<Call>)
    requires now - zero >= 20.0
    ensures Leads(NewPlayer(zero), calls, NewPlayer(zero).(query := Bucket(Queries, 0.0, now)))
  {
    var q, s := Query(now, now, now), NewPlayer(zero);
    var t := s.(query := Bucket(Queries, 9.0, now));
    CallLeads(s, q);
    QueriesServed(t, now, 9);
    ThenLeads(s, [q], t, Times(q, 9), s.(query := Bucket(Queries, 0.0, now)));
    calls := [q] + Times(q, 9);
  }

  lemma WarnQueries(s: Limits, now: real) returns (calls: seq<Call>)
    requires s.query == Bucket(Queries, 0.0, now) && s.timeoutEnd <= now && s.rejections == 0 && now > s.rejectionTS + 10.0
    ensures Leads(s, calls, s.(rejections := 19, rejectionTS := now))
  {
    var q := Query(now, now, now);
    var t := s.(rejections := 1, rejectionTS := now);
    CallLeads(s, q);
    QueriesWarned(t, now, 18);
    ThenLeads(s, [q], t, Times(q, 18), s.(rejections := 19, rejectionTS := now));
    calls := [q] + Times(q, 18);
  }

  lemma DrainCommands(s: Limits, now: real) returns (calls: seq<Call>)
    requires s.main.rate == Commands && s.main.tokens == 0.0 && now - s.main.last >= 20.0 && s.timeoutEnd <= now
    ensures Leads(s, calls, s.(main := Bucket(Commands, 0.0, now)))
  {
    var c := Command(now, now);
    var t := s.(main := Bucket(Commands, 11.0, now));
    CallLeads(s, c);
    CommandsServed(t, now, 11);
    ThenLeads(s, [c], t, Times(c, 11), s.(main := Bucket(Commands, 0.0, now)));
    calls := [c] + Times(c, 11);
  }

  /** Ten queries drain the query bucket, nineteen more are rejected with a warning, twelve
      commands drain the command bucket and the thirteenth starts the timeout. */
  lemma NewPlayerGetsThere(zero: real, now: real) returns (calls: seq<Call>)
    requires now - zero >= 20.0
    ensures var s := After(NewPlayer(zero), calls, |calls|);
            && s.actions == 0 && s.rejections == 19 && !s.banned
            && now < s.timeoutEnd && s.query.Level(now) < 1.0 && now <= s.rejectionTS + 10.0
  {
    var s0 := NewPlayer(zero);
    var s1 := s0.(query := Bucket(Queries, 0.0, now));
    var s2 := s1.(rejections := 19, rejectionTS := now);
    var s3 := s2.(main := Bucket(Commands, 0.0, now));
    var a := DrainQueries(zero, now);
    var b := WarnQueries(s1, now);
    var c := DrainCommands(s2, now);
    ThenLeads(s0, a, s1, b, s2);
    ThenLeads(s0, a + b, s2, c, s3);
    CallLeads(s3, Command(now, now));
    ThenLeads(s0, a + b + c, s3, [Command(now, now)], Dispatch(s3, Command(now, now)).0);
    calls := a + b + c + [Command(now, now)];
  }
}
