/** The buckets inside the rate limiter: the closed form holds for what a player's commands
    make of them, in every history. */
module Throttles {
  import opened TokenBucket
  import RateLimit
  import opened BanExactly

  type Limits = RateLimit.Limits
  type Call = RateLimit.Call

  /** The call asks the query bucket, or, unless a timeout is running, the command bucket. */
  predicate Asks(s: Limits, c: Call, queries: bool) {
    if queries then c.Query? else c.Command? && !RateLimit.OnTimeout(s, c.checkAt)
  }

  /** When the first n calls ask the bucket. */
  function AskedAt(s: Limits, calls: seq<Call>, n: nat, queries: bool): seq<real>
    requires n <= |calls|
    decreases n
  {
    if n == 0 then []
    else
      var before := AskedAt(s, calls, n - 1, queries);
      if Asks(RateLimit.After(s, calls, n - 1), calls[n - 1], queries) then before + [calls[n - 1].bucketAt] else before
  }

  function BucketOf(s: Limits, queries: bool): Bucket {
    if queries then s.query else s.main
  }

  lemma {:induction false} AfterMore(b: Bucket, times: seq<real>, t: real, n: nat)
    requires n <= |times|
    ensures After(b, times + [t], n) == After(b, times, n)
    decreases n
  {
    if n > 0 {
      AfterMore(b, times, t, n - 1);
    }
  }

  lemma AskedNext(s: Limits, c: Call, queries: bool)
    ensures var t := RateLimit.Dispatch(s, c).0;
      BucketOf(t, queries) == if Asks(s, c, queries) then BucketOf(s, queries).Take(c.bucketAt).0 else BucketOf(s, queries)
  {
  }

  /** The bucket a player has is the bucket that was asked at those times and no others. */
  lemma {:induction false} BucketFollows(s: Limits, calls: seq<Call>, n: nat, queries: bool)
    requires n <= |calls|
    ensures var times := AskedAt(s, calls, n, queries);
      BucketOf(RateLimit.After(s, calls, n), queries) == After(BucketOf(s, queries), times, |times|)
    decreases n
  {
    if n > 0 {
      BucketFollows(s, calls, n - 1, queries);
      AskedNext(RateLimit.After(s, calls, n - 1), calls[n - 1], queries);
      var before := AskedAt(s, calls, n - 1, queries);
      AfterMore(BucketOf(s, queries), before, calls[n - 1].bucketAt, |before|);
    }
  }

  lemma OrderedMore(times: seq<real>, t: real, start: real, clock: real)
    requires Ordered(times) && (forall i :: 0 <= i < |times| ==> start <= times[i] <= clock) && clock <= t
    ensures Ordered(times + [t])
  {
  }

  lemma {:induction false} ClockIsLater(start: real, calls: seq<Call>, n: nat)
    requires Forward(start, calls) && n <= |calls|
    ensures start <= Clock(start, calls, n)
    decreases n
  {
    if n > 0 {
      ClockIsLater(start, calls, n - 1);
      assert Clock(start, calls, n - 1) <= First(calls[n - 1]) && InOrder(calls[n - 1]);
    }
  }

  lemma {:induction false} AskedInOrder(s: Limits, start: real, calls: seq<Call>, n: nat, queries: bool)
    requires Forward(start, calls) && n <= |calls|
    ensures var times := AskedAt(s, calls, n, queries);
      Ordered(times) && forall i :: 0 <= i < |times| ==> start <= times[i] <= Clock(start, calls, n)
    decreases n
  {
    if n > 0 {
      AskedInOrder(s, start, calls, n - 1, queries);
      ClockIsLater(start, calls, n - 1);
      var before, c := AskedAt(s, calls, n - 1, queries), calls[n - 1];
      assert Clock(start, calls, n - 1) <= First(c) && InOrder(c);
      OrderedMore(before, c.bucketAt, start, Clock(start, calls, n - 1));
    }
  }

  /** A new player's buckets are full when first asked. */
  lemma NewPlayerStarts(zero: real, times: seq<real>, queries: bool)
    requires Ordered(times) && (times != [] ==> times[0] - zero >= 12.0)
    ensures Starts(BucketOf(RateLimit.NewPlayer(zero), queries), times)
  {
    if times != [] {
      FreshIsFull(if queries then Queries else Commands, zero, times);
    }
  }

  /** In any history of a new player, a call that asks a bucket gets a token if and only if,
      counted from every earlier asking, the tokens given leave room for one more. */
  lemma TokenWhenRoom(zero: real, start: real, calls: seq<Call>, n: nat, queries: bool)
    requires start - zero >= 12.0 && Forward(start, calls) && n < |calls|
    requires Asks(RateLimit.After(RateLimit.NewPlayer(zero), calls, n), calls[n], queries)
    ensures var s := RateLimit.NewPlayer(zero); var times := AskedAt(s, calls, n + 1, queries); var j := |times| - 1;
      var b := BucketOf(s, queries);
      && j >= 0 && times[j] == calls[n].bucketAt
      && (RateLimit.OutcomeOf(s, calls, n) == RateLimit.Served <==>
            forall i :: 0 <= i <= j ==> Accepted(b, times, i, j) as real + 1.0 <= b.rate.Capacity() + b.rate.Gain(times[j] - times[i]))
  {
    var s := RateLimit.NewPlayer(zero);
    var times := AskedAt(s, calls, n + 1, queries);
    AskedInOrder(s, start, calls, n + 1, queries);
    NewPlayerStarts(zero, times, queries);
    AcceptedWhenRoom(BucketOf(s, queries), times, |times| - 1);
    ServedIsAccepted(s, calls, n, queries);
  }

  lemma ServedIsAccepted(s: Limits, calls: seq<Call>, n: nat, queries: bool)
    requires n < |calls| && Asks(RateLimit.After(s, calls, n), calls[n], queries)
    ensures var times := AskedAt(s, calls, n + 1, queries);
      RateLimit.OutcomeOf(s, calls, n) == RateLimit.Served <==> Accepts(BucketOf(s, queries), times, |times| - 1)
  {
    var before := AskedAt(s, calls, n, queries);
    BucketFollows(s, calls, n, queries);
    AfterMore(BucketOf(s, queries), before, calls[n].bucketAt, |before|);
  }
}
