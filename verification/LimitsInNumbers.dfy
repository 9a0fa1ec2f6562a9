/** The three rate limits in numbers: how many calls at once, how many in a stretch of time, and
    how long a dry bucket takes. */
module LimitsInNumbers {
  import opened TokenBucket

  /** How many calls a full bucket takes at one moment. */
  function Burst(rate: Rate): nat {
    match rate
    case Commands => 12
    case Queries => 10
    case Logins => 10
  }

  ghost predicate AtOnce(times: seq<real>) {
    forall i, j :: 0 <= i < |times| && 0 <= j < |times| ==> times[i] == times[j]
  }

  lemma {:induction false} BurstLevel(b: Bucket, times: seq<real>, j: nat)
    requires Starts(b, times) && AtOnce(times) && j < |times|
    ensures After(b, times, j).Level(times[j]) == if j <= Burst(b.rate) then (Burst(b.rate) - j) as real else 0.0
    ensures j > 0 ==> After(b, times, j).tokens == After(b, times, j).Level(times[j])
    decreases j
  {
    if j > 0 {
      BurstLevel(b, times, j - 1);
      assert times[j - 1] == times[j] == times[0];
    }
  }

  /** Of calls made at one moment, twelve commands, ten queries or ten login attempts get through,
      the first ones. */
  lemma BurstExactly(b: Bucket, times: seq<real>, j: nat)
    requires Starts(b, times) && AtOnce(times) && j < |times|
    ensures Accepts(b, times, j) <==> j < Burst(b.rate)
  {
    BurstLevel(b, times, j);
  }

  /** In no stretch of time do more get through than these and 1.1, 0.9 or 0.5 a second. */
  lemma StretchBound(b: Bucket, times: seq<real>, i: nat, j: nat)
    requires Starts(b, times) && i <= j < |times|
    ensures var n, t := Accepted(b, times, i, j + 1) as real, times[j] - times[i];
      match b.rate
      case Commands => n <= 12.0 + 1.1 * t
      case Queries => n <= 10.0 + 0.9 * t
      case Logins => n <= 10.0 + 0.5 * t
  {
    WindowBound(b, times, i, j);
  }

  /** A bucket left empty gives its next token after 10/11, 10/9 or 2 seconds, and not before. */
  lemma DryFor(b: Bucket, wait: real)
    requires b.tokens == 0.0 && wait >= 0.0
    ensures b.Take(b.last + wait).1 <==>
            match b.rate
            case Commands => 11.0 * wait >= 10.0
            case Queries => 9.0 * wait >= 10.0
            case Logins => wait >= 2.0
  {
  }
}
