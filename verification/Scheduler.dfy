/** The controller's view of which drones may be given a backend, against the status messages it
    has received. Times are in nanoseconds of the controller's clock. */
module Scheduler {
  import opened Lifecycle
  import opened Heartbeat
  import opened Clock

  const WINDOW := 5 * SECOND
  const STATUS_PERIOD := 4 * SECOND

  datatype Message = Message(at: int, cluster: string, drone: string, ready: bool)

  /** The last message of a drone for a cluster. */
  function LastMessage(log: seq<Message>, cluster: string, drone: string): Option<Message> {
    if log == [] then None
    else
      var last := log[|log| - 1];
      if last.cluster == cluster && last.drone == drone then Some(last)
      else LastMessage(log[..|log| - 1], cluster, drone)
  }

  /** Ready at last report, and that less than the window ago. */
  predicate Candidate(log: seq<Message>, cluster: string, now: int, drone: string) {
    var last := LastMessage(log, cluster, drone);
    last.Some? && last.value.ready && last.value.at > now - WINDOW
  }

  function From(log: seq<Message>, cluster: string, drone: string): (beat: seq<bool>)
    ensures |beat| == |log|
    ensures forall i :: 0 <= i < |log| ==> (beat[i] <==> log[i].cluster == cluster && log[i].drone == drone)
  {
    seq(|log|, i requires 0 <= i < |log| => log[i].cluster == cluster && log[i].drone == drone)
  }

  lemma {:induction false} LastMessageIs(log: seq<Message>, cluster: string, drone: string, n: nat)
    requires n <= |log|
    ensures
      var last := LastBeat(From(log, cluster, drone), n);
      LastMessage(log[..n], cluster, drone) == if last.None? then None else Some(log[last.value])
  {
    if n > 0 {
      assert log[..n][..n - 1] == log[..n - 1];
      LastMessageIs(log, cluster, drone, n - 1);
    }
  }

  /** A candidate, in terms of the messages alone: its last message for the cluster says ready and is
      less than 5 s old. */
  lemma CandidateExactly(log: seq<Message>, cluster: string, now: int, drone: string)
    ensures Candidate(log, cluster, now, drone) <==>
            exists i :: && 0 <= i < |log| && log[i].cluster == cluster && log[i].drone == drone && log[i].ready
                        && log[i].at > now - 5_000_000_000
                        && forall j :: i < j < |log| ==> !(log[j].cluster == cluster && log[j].drone == drone)
  {
    LastMessageIs(log, cluster, drone, |log|);
    assert log[..|log|] == log;
  }

  type Table = map<string, map<string, int>>

  function Updated(table: Table, m: Message): Table {
    var cluster := if m.cluster in table then table[m.cluster] else map[];
    table[m.cluster := if m.ready then cluster[m.drone := m.at] else cluster - {m.drone}]
  }

  /** The table holds, for each drone whose last message was ready, the time of that message. */
  predicate Holds(table: Table, log: seq<Message>, cluster: string, drone: string) {
    var last := LastMessage(log, cluster, drone);
    && ((cluster in table && drone in table[cluster]) <==> last.Some? && last.value.ready)
    && (cluster in table && drone in table[cluster] ==> table[cluster][drone] == last.value.at)
  }

  ghost predicate Reflects(table: Table, log: seq<Message>) {
    forall cluster, drone :: Holds(table, log, cluster, drone)
  }

  lemma UpdatedReflects(table: Table, log: seq<Message>, m: Message)
    requires Reflects(table, log)
    ensures Reflects(Updated(table, m), log + [m])
  {
    assert (log + [m])[..|log|] == log;
    forall cluster, drone ensures Holds(Updated(table, m), log + [m], cluster, drone) {
      assert Holds(table, log, cluster, drone);
    }
  }

  datatype Choice = Scheduled(drone: string) | NoDroneAvailable

  class Scheduler {
    var lastStatus: Table
    ghost var log: seq<Message>

    ghost predicate Valid()
      reads this
    {
      Reflects(lastStatus, log)
    }

    constructor ()
      ensures Valid() && log == []
    {
      lastStatus, log := map[], [];
    }

    method UpdateStatus(m: Message)
      requires Valid()
      modifies this
      ensures Valid() && log == old(log) + [m]
    {
      UpdatedReflects(lastStatus, log, m);
      lastStatus := Updated(lastStatus, m);
      log := log + [m];
    }

    /** `live` lists, once each, exactly the drones whose last message for the cluster says ready and is
        less than 5 s old; the random draw picks one of them, and the call fails exactly if there is
        none. Any of them can be drawn. */
    method Schedule(cluster: string, now: int, draw: nat) returns (choice: Choice, live: seq<string>)
      requires Valid()
      ensures forall drone :: drone in live <==>
                exists i :: && 0 <= i < |log| && log[i].cluster == cluster && log[i].drone == drone && log[i].ready
                            && log[i].at > now - 5_000_000_000
                            && forall j :: i < j < |log| ==> !(log[j].cluster == cluster && log[j].drone == drone)
      ensures forall i, j :: 0 <= i < j < |live| ==> live[i] != live[j]
      ensures choice == if live == [] then NoDroneAvailable else Scheduled(live[draw % |live|])
    {
      live := [];
      if cluster in lastStatus {
        var drones := lastStatus[cluster];
        var rest := drones.Keys;
        while rest != {}
          invariant rest <= drones.Keys
          invariant forall d :: d in live <==> d in drones.Keys - rest && drones[d] > now - WINDOW
          invariant forall i, j :: 0 <= i < j < |live| ==> live[i] != live[j]
          decreases |rest|
        {
          var d :| d in rest;
          assert d !in live;
          if drones[d] > now - WINDOW {
            live := live + [d];
          }
          rest := rest - {d};
        }
      }
      forall drone
        ensures drone in live <==>
                  exists i :: && 0 <= i < |log| && log[i].cluster == cluster && log[i].drone == drone && log[i].ready
                              && log[i].at > now - 5_000_000_000
                              && forall j :: i < j < |log| ==> !(log[j].cluster == cluster && log[j].drone == drone)
      {
        assert Holds(lastStatus, log, cluster, drone);
        CandidateExactly(log, cluster, now, drone);
      }
      choice := if live == [] then NoDroneAvailable else Scheduled(live[draw % |live|]);
    }
  }

  // ---- heartbeats -------------------------------------------------------------------------

  function Times(log: seq<Message>): (times: seq<int>)
    ensures |times| == |log| && forall i :: 0 <= i < |log| ==> times[i] == log[i].at
  {
    seq(|log|, i requires 0 <= i < |log| => log[i].at)
  }

  /** At every moment, a drone that has reported is a candidate exactly if its latest report says ready
      and is less than 5 s old; so a drone that falls silent is given up, and one whose reports arrive
      less than 5 s apart is a candidate for as long as they say ready, until 5 s after the last. */
  lemma ReadyIsCandidate(log: seq<Message>, cluster: string, drone: string, now: int)
    requires Sorted(Times(log)) && LastBeat(From(log, cluster, drone), Arrived(Times(log), now)).Some?
    ensures
      var n, beat := Arrived(Times(log), now), From(log, cluster, drone);
      var last := log[LastBeat(beat, n).value];
      && (Candidate(log[..n], cluster, now, drone) <==> last.ready && now < last.at + 5_000_000_000)
      && (Steady(Times(log), beat, 5_000_000_000 - 1) && now < log[LastBeat(beat, |beat|).value].at + 5_000_000_000 ==>
            (Candidate(log[..n], cluster, now, drone) <==> last.ready))
  {
    var n, beat := Arrived(Times(log), now), From(log, cluster, drone);
    LastMessageIs(log, cluster, drone, n);
    if Steady(Times(log), beat, WINDOW - 1) && now < log[LastBeat(beat, |beat|).value].at + WINDOW {
      BeatIsRecent(Times(log), beat, WINDOW - 1, now);
    }
  }

  /** The drone's own schedule, a report every 4 s with delays of less than 1 s, is such a one. */
  lemma HeartbeatKeepsCandidate(log: seq<Message>, sent: seq<int>, cluster: string, drone: string, delay: nat, now: int)
    requires |sent| == |log| && Sorted(Times(log)) && delay < SECOND
    requires Steady(sent, From(log, cluster, drone), STATUS_PERIOD)
    requires forall i :: 0 <= i < |log| && From(log, cluster, drone)[i] ==> sent[i] <= log[i].at <= sent[i] + delay
    requires
      var n, beat := Arrived(Times(log), now), From(log, cluster, drone);
      LastBeat(beat, n).Some? && now < Times(log)[LastBeat(beat, |beat|).value] + WINDOW
    ensures
      var n := Arrived(Times(log), now);
      Candidate(log[..n], cluster, now, drone) <==> log[LastBeat(From(log, cluster, drone), n).value].ready
  {
    DelayedIsSteady(sent, Times(log), From(log, cluster, drone), STATUS_PERIOD, delay);
    SteadyWeaker(Times(log), From(log, cluster, drone), STATUS_PERIOD + delay, WINDOW - 1);
    ReadyIsCandidate(log, cluster, drone, now);
  }
}
