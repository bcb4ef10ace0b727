/** The argument shared by the scheduler's liveness window and the DNS refresh: if beats are never
    further apart than a window, the latest one is always inside it. */
module Heartbeat {
  import opened Lifecycle

  predicate Sorted(times: seq<int>) {
    forall i, j :: 0 <= i <= j < |times| ==> times[i] <= times[j]
  }

  /** The events at or before `now`. */
  function Arrived(times: seq<int>, now: int): (n: nat)
    ensures n <= |times|
    ensures n < |times| ==> times[n] > now
    ensures Sorted(times) ==> forall i :: 0 <= i < |times| ==> (times[i] <= now <==> i < n)
  {
    if times == [] || times[0] > now then 0
    else Arrived(times[1..], now) + 1
  }

  /** The latest of the marked events among the first `n`. */
  function LastBeat(beat: seq<bool>, n: nat): (last: Option<nat>)
    requires n <= |beat|
    ensures last.None? <==> forall i :: 0 <= i < n ==> !beat[i]
    ensures last.Some? ==> last.value < n && beat[last.value] && forall i :: last.value < i < n ==> !beat[i]
  {
    if n == 0 then None else if beat[n - 1] then Some(n - 1) else LastBeat(beat, n - 1)
  }

  /** Between two successive beats there is at most `gap`. */
  predicate Steady(times: seq<int>, beat: seq<bool>, gap: int)
    requires |times| == |beat|
  {
    forall i, j :: 0 <= i < j < |times| && beat[i] && beat[j] && (forall k :: i < k < j ==> !beat[k]) ==>
      times[j] - times[i] <= gap
  }

  lemma SteadyWeaker(times: seq<int>, beat: seq<bool>, gap: int, wider: int)
    requires |times| == |beat| && Steady(times, beat, gap) && gap <= wider
    ensures Steady(times, beat, wider)
  {
  }

  lemma {:induction false} FirstBeatFrom(beat: seq<bool>, n: nat, j: nat) returns (k: nat)
    requires n <= j < |beat| && beat[j]
    ensures n <= k <= j && beat[k] && forall i :: n <= i < k ==> !beat[i]
    decreases j - n
  {
    if beat[n] {
      k := n;
    } else {
      k := FirstBeatFrom(beat, n + 1, j);
    }
  }

  /** From the first beat until `gap` after the last one, the latest beat is at most `gap` old. */
  lemma BeatIsRecent(times: seq<int>, beat: seq<bool>, gap: int, now: int)
    requires |times| == |beat| && Sorted(times) && Steady(times, beat, gap)
    requires LastBeat(beat, Arrived(times, now)).Some?
    requires now <= times[LastBeat(beat, |beat|).value] + gap
    ensures
      var last := LastBeat(beat, Arrived(times, now)).value;
      times[last] <= now <= times[last] + gap
  {
    var n := Arrived(times, now);
    var last := LastBeat(beat, n).value;
    if j :| n <= j < |beat| && beat[j] {
      var next := FirstBeatFrom(beat, n, j);
      assert times[next] - times[last] <= gap;
    } else {
      assert LastBeat(beat, |beat|).value == last;
    }
  }

  /** Beats sent at most `period` apart that take between 0 and `delay` to arrive are received at
      most `period + delay` apart. */
  lemma DelayedIsSteady(sent: seq<int>, times: seq<int>, beat: seq<bool>, period: int, delay: int)
    requires |sent| == |times| == |beat| && Steady(sent, beat, period)
    requires forall i :: 0 <= i < |times| && beat[i] ==> sent[i] <= times[i] <= sent[i] + delay
    ensures Steady(times, beat, period + delay)
  {
  }
}
