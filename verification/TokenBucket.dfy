/** The token bucket behind all three throttles. Time is in seconds; time and tokens are
    reals. */
module TokenBucket {

  datatype Rate = Commands | Queries | Logins {
    /** Tokens refilled in a stretch of time. */
    function Gain(elapsed: real): real {
      match this
      case Commands => 1.1 * elapsed
      case Queries => 0.9 * elapsed
      case Logins => 0.5 * elapsed
    }

    function Capacity(): real {
      match this
      case Commands => 12.0
      case Queries => 10.0
      case Logins => 10.0
    }
  }

  datatype Bucket = Bucket(rate: Rate, tokens: real, last: real) {
    /** What the bucket holds when asked at a time. */
    function Level(now: real): real {
      var filled := tokens + rate.Gain(now - last);
      if filled < rate.Capacity() then filled else rate.Capacity()
    }

    function Take(now: real): (Bucket, bool) {
      if Level(now) >= 1.0
      then (Bucket(rate, Level(now) - 1.0, now), true)
      else (Bucket(rate, Level(now), now), false)
    }
  }

  class Throttle {
    const rate: Rate
    var tokens: real
    var last: real

    constructor (rate: Rate, zeroTime: real)
      ensures State() == Bucket(rate, 0.0, zeroTime)
    {
      this.rate, tokens, last := rate, 0.0, zeroTime;
    }

    function State(): Bucket
      reads this
    {
      Bucket(rate, tokens, last)
    }

    method TryTake(now: real) returns (ok: bool)
      modifies this
      ensures (State(), ok) == old(State()).Take(now)
    {
      var elapsed := now - last;
      var toAdd := rate.Gain(elapsed);
      tokens := if tokens + toAdd < rate.Capacity() then tokens + toAdd else rate.Capacity();
      last := now;
      if tokens >= 1.0 {
        tokens := tokens - 1.0;
        return true;
      }
      return false;
    }
  }

  // ---- A run of calls ----

  /** The bucket after the first n calls. */
  function After(b: Bucket, times: seq<real>, n: nat): (a: Bucket)
    requires n <= |times|
    ensures a.rate == b.rate && (n > 0 ==> a.last == times[n - 1])
    decreases n
  {
    if n == 0 then b else After(b, times, n - 1).Take(times[n - 1]).0
  }

  predicate Accepts(b: Bucket, times: seq<real>, j: nat)
    requires j < |times|
  {
    After(b, times, j).Take(times[j]).1
  }

  /** How many of the calls i .. j-1 were accepted. */
  function Accepted(b: Bucket, times: seq<real>, i: nat, j: nat): nat
    requires i <= j <= |times|
    decreases j - i
  {
    if i == j then 0 else Accepted(b, times, i, j - 1) + (if Accepts(b, times, j - 1) then 1 else 0)
  }

  ghost predicate Ordered(times: seq<real>) {
    forall i, j :: 0 <= i <= j < |times| ==> times[i] <= times[j]
  }

  /** Time does not run backwards and the first call finds the bucket full. */
  ghost predicate Starts(b: Bucket, times: seq<real>) {
    Ordered(times) && (|times| > 0 ==> b.Level(times[0]) == b.rate.Capacity())
  }

  /** The zero time stamp of a new player lies so far back that every bucket starts full. */
  lemma FreshIsFull(rate: Rate, zero: real, times: seq<real>)
    requires Ordered(times) && |times| > 0
    ensures Starts(Bucket(rate, 0.0, zero), times) <==> rate.Gain(times[0] - zero) >= rate.Capacity()
  {
  }

  /** Tokens the bucket would hold at call j had it been full at call i. */
  function Left(b: Bucket, times: seq<real>, i: nat, j: nat): real
    requires i <= j < |times|
  {
    b.rate.Capacity() + b.rate.Gain(times[j] - times[i]) - Accepted(b, times, i, j) as real
  }

  /** The level before call j is the least of what every moment up to it leaves. */
  lemma {:induction false} LevelIsLeast(b: Bucket, times: seq<real>, j: nat) returns (w: nat)
    requires Starts(b, times) && j < |times|
    ensures forall i :: 0 <= i <= j ==> After(b, times, j).Level(times[j]) <= Left(b, times, i, j)
    ensures w <= j && After(b, times, j).Level(times[j]) == Left(b, times, w, j)
    decreases j
  {
    if j == 0 {
      w := 0;
    } else {
      w := LevelIsLeast(b, times, j - 1);
      forall i | 0 <= i < j ensures After(b, times, j).Level(times[j]) <= Left(b, times, i, j) {
        assert After(b, times, j - 1).Level(times[j - 1]) <= Left(b, times, i, j - 1);
      }
      if After(b, times, j).Level(times[j]) == b.rate.Capacity() {
        w := j;
      }
    }
  }

  /** The closed form: a call is accepted if and only if, counted from every moment up to
      it, the calls already accepted leave room for one more. */
  lemma AcceptedWhenRoom(b: Bucket, times: seq<real>, j: nat)
    requires Starts(b, times) && j < |times|
    ensures Accepts(b, times, j) <==>
            forall i :: 0 <= i <= j ==>
              Accepted(b, times, i, j) as real + 1.0 <= b.rate.Capacity() + b.rate.Gain(times[j] - times[i])
  {
    var w := LevelIsLeast(b, times, j);
    assert Accepts(b, times, j) <==> Left(b, times, w, j) >= 1.0;
    assert forall i :: 0 <= i <= j ==> Left(b, times, w, j) <= Left(b, times, i, j);
    assert forall i :: 0 <= i <= j ==>
      (Left(b, times, i, j) >= 1.0 <==>
       Accepted(b, times, i, j) as real + 1.0 <= b.rate.Capacity() + b.rate.Gain(times[j] - times[i]));
  }

  /** Any window of calls accepts at most the capacity plus what refills during it. */
  lemma {:induction false} WindowBound(b: Bucket, times: seq<real>, i: nat, j: nat)
    requires Starts(b, times) && i <= j < |times|
    ensures Accepted(b, times, i, j + 1) as real <= b.rate.Capacity() + b.rate.Gain(times[j] - times[i])
    decreases j - i
  {
    if Accepts(b, times, j) {
      AcceptedWhenRoom(b, times, j);
    } else if i < j {
      WindowBound(b, times, i, j - 1);
    }
  }
}
