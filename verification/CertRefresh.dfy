/** The certificate refresh loop against an exact clock, while every refresh attempt fails and leaves
    the certificate file as it is. Times are in seconds. */
module CertRefresh {

  const HOUR := 3600
  const REFRESH_MARGIN := HOUR * 24 * 15
  const MAX_SLEEP := HOUR

  /** `refresh_if_not_valid`: the time to wait, or the decision to refresh now. */
  datatype Plan = Wait(seconds: nat) | Refresh

  function PlanAt(validUntil: int, now: int): Plan {
    var timeUntilRefresh := validUntil - REFRESH_MARGIN - now;
    if timeUntilRefresh > 0 then Wait(timeUntilRefresh) else Refresh
  }

  function Min(a: nat, b: nat): nat {
    if a < b then a else b
  }

  /** The wake-ups before the refresh date: the loop sleeps the time left, but at most an hour, so no
      wake-up overshoots the refresh date and the last one is exactly on it. */
  method SleepUntilRefresh(validUntil: int, start: int) returns (wakes: seq<int>)
    ensures start > validUntil - 15 * 24 * 3600 ==> wakes == [start]
    ensures start <= validUntil - 15 * 24 * 3600 ==>
              && wakes != [] && wakes[0] == start && wakes[|wakes| - 1] == validUntil - 15 * 24 * 3600
              && (forall i :: 0 <= i < |wakes| ==> wakes[i] <= validUntil - 15 * 24 * 3600)
              && (forall i :: 0 <= i < |wakes| - 1 ==> wakes[i] < wakes[i + 1] <= wakes[i] + 3600)
  {
    var now := start;
    wakes := [start];
    while PlanAt(validUntil, now).Wait?
      invariant wakes != [] && wakes[0] == start && wakes[|wakes| - 1] == now
      invariant start > validUntil - REFRESH_MARGIN ==> wakes == [start]
      invariant start <= validUntil - REFRESH_MARGIN ==>
                  forall i :: 0 <= i < |wakes| ==> wakes[i] <= validUntil - REFRESH_MARGIN
      invariant forall i :: 0 <= i < |wakes| - 1 ==> wakes[i] < wakes[i + 1] <= wakes[i] + MAX_SLEEP
      decreases validUntil - REFRESH_MARGIN - now
    {
      now := now + Min(PlanAt(validUntil, now).seconds, MAX_SLEEP);
      wakes := wakes + [now];
    }
  }

  /** Attempts that fail: each starts an hour after the one before it ended. */
  predicate Spaced(attempts: seq<int>, durations: seq<nat>) {
    |attempts| == |durations| && forall k :: 0 < k < |attempts| ==> attempts[k] == attempts[k - 1] + durations[k - 1] + 3600
  }

  /** The loop, for as many attempts as there are durations, each of which fails: it attempts a refresh
      only when the plan says so, first on the refresh date, or at once if that has passed, and then an
      hour after each attempt. */
  method RefreshLoop(validUntil: int, start: int, durations: seq<nat>) returns (attempts: seq<int>)
    ensures Spaced(attempts, durations)
    ensures attempts != [] ==> attempts[0] == if start < validUntil - 15 * 24 * 3600 then validUntil - 15 * 24 * 3600 else start
    ensures forall k :: 0 <= k < |attempts| ==> attempts[k] >= validUntil - 15 * 24 * 3600
  {
    var now := start;
    ghost var first := if start < validUntil - REFRESH_MARGIN then validUntil - REFRESH_MARGIN else start;
    attempts := [];
    while |attempts| < |durations|
      invariant |attempts| <= |durations|
      invariant attempts == [] ==> start <= now <= first
      invariant attempts != [] ==>
        && attempts[0] == first <= now
        && now == attempts[|attempts| - 1] + durations[|attempts| - 1] + 3600
      invariant forall k :: 0 < k < |attempts| ==> attempts[k] == attempts[k - 1] + durations[k - 1] + 3600
      invariant forall k :: 0 <= k < |attempts| ==> attempts[k] >= validUntil - REFRESH_MARGIN
      decreases |durations| - |attempts|, if now < first then first - now else 0
    {
      match PlanAt(validUntil, now)
      case Wait(seconds) =>
        now := now + Min(seconds, MAX_SLEEP);
      case Refresh =>
        attempts := attempts + [now];
        now := now + durations[|attempts| - 1] + HOUR;
    }
  }

  lemma {:induction false} AttemptsAreTimely(attempts: seq<int>, durations: seq<nat>, longest: nat, k: nat)
    requires Spaced(attempts, durations) && k < |attempts| && forall i :: 0 <= i < |durations| ==> durations[i] <= longest
    ensures attempts[k] <= attempts[0] + k * (3600 + longest)
    ensures (forall i :: 0 <= i < |durations| ==> durations[i] == longest) ==>
              attempts[k] == attempts[0] + k * (3600 + longest)
  {
    if k > 0 {
      AttemptsAreTimely(attempts, durations, longest, k - 1);
      assert k * (3600 + longest) == (k - 1) * (3600 + longest) + (3600 + longest);
    }
  }

  /** n / d, rounded up. */
  function DividedUp(n: int, d: nat): nat
    requires d > 0
    decreases if n < 0 then 0 else n
  {
    if n <= 0 then 0 else 1 + DividedUp(n - d, d)
  }

  lemma {:induction false} DivideUp(n: int, d: nat, k: nat)
    requires d > 0
    ensures k < DividedUp(n, d) <==> k * d < n
    decreases k
  {
    if n > 0 && k > 0 {
      DivideUp(n - d, d, k - 1);
      assert k * d == (k - 1) * d + d;
    } else {
      assert k * d >= 0;
    }
  }

  /** A loop that is running when the refresh date comes starts attempt `k`, counted from 0, before the
      certificate expires if k is less than 360 hours over an hour plus the longest attempt, rounded
      up, and exactly so if every attempt takes the longest time; rounding down would be less. */
  lemma AttemptsBeforeExpiry(validUntil: int, attempts: seq<int>, durations: seq<nat>, longest: nat, k: nat)
    requires Spaced(attempts, durations) && k < |attempts| && attempts[0] == validUntil - 15 * 24 * 3600
    requires forall i :: 0 <= i < |durations| ==> durations[i] <= longest
    ensures k * (3600 + longest) < 360 * 3600 ==> attempts[k] < validUntil
    ensures (forall i :: 0 <= i < |durations| ==> durations[i] == longest) ==>
              (attempts[k] < validUntil <==> k * (3600 + longest) < 360 * 3600)
    ensures k * (3600 + longest) < 360 * 3600 <==> k < DividedUp(360 * 3600, 3600 + longest)
  {
    AttemptsAreTimely(attempts, durations, longest, k);
    DivideUp(360 * 3600, 3600 + longest, k);
  }

  /** So the number of attempts is at least the quotient rounded down. */
  lemma RoundedUpIsMore(n: nat, d: nat)
    requires d > 0
    ensures n / d <= DividedUp(n, d)
  {
    var q := n / d;
    if q > 0 {
      DivideUp(n, d, q - 1);
      assert q * d <= n;
      assert (q - 1) * d == q * d - d;
    }
  }
}
