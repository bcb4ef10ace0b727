/** The proxy's record of which backends are in use, against the history of the calls made to it. */
module ConnectionTracker {

  datatype Op = Requested(backend: string) | Opened(backend: string) | Closed(backend: string) | Drained

  const U32 := 0x1_0000_0000

  /** Long-lived connections of `b`; a close that matches no open connection is ignored. */
  function Open(log: seq<Op>, b: string): nat {
    if log == [] then 0
    else
      var before, last := Open(log[..|log| - 1], b), log[|log| - 1];
      if last == Opened(b) then before + 1
      else if last == Closed(b) && before > 0 then before - 1
      else before
  }

  /** `b` had a request since the tracker was last drained. */
  predicate Fresh(log: seq<Op>, b: string) {
    log != [] && log[|log| - 1] != Drained && (log[|log| - 1] == Requested(b) || Fresh(log[..|log| - 1], b))
  }

  /** What a drain must report. */
  predicate Active(log: seq<Op>, b: string) {
    Fresh(log, b) || Open(log, b) > 0
  }

  /** No backend ever has 2^32 connections open at once. */
  ghost predicate Fits(log: seq<Op>) {
    log != [] ==> Fits(log[..|log| - 1]) && forall b :: Open(log, b) < U32
  }

  /** How the history functions read one more call. */
  lemma Logged(log: seq<Op>, op: Op, b: string)
    ensures Open(log + [op], b) ==
            if op == Opened(b) then Open(log, b) + 1
            else if op == Closed(b) && Open(log, b) > 0 then Open(log, b) - 1
            else Open(log, b)
    ensures Fresh(log + [op], b) <==> op != Drained && (op == Requested(b) || Fresh(log, b))
    ensures Fits(log + [op]) ==> Fits(log) && Open(log, b) < U32 && Open(log + [op], b) < U32
  {
    assert (log + [op])[..|log|] == log;
  }

  predicate Tally(connections: map<string, int>, log: seq<Op>, b: string) {
    (b in connections <==> Open(log, b) > 0) && (b in connections ==> connections[b] == Open(log, b))
  }

  /** `connections` holds exactly the positive counts. */
  ghost predicate Tallies(connections: map<string, int>, log: seq<Op>) {
    forall b :: Tally(connections, log, b)
  }

  /** `DashMultiset::add`, on a 32-bit counter. */
  function Added(connections: map<string, int>, b: string): map<string, int> {
    connections[b := if b in connections then (connections[b] + 1) % U32 else 1]
  }

  /** `DashMultiset::remove`: an entry that reaches zero is dropped. */
  function Removed(connections: map<string, int>, b: string): map<string, int> {
    if b !in connections then connections
    else
      var left := (connections[b] - 1) % U32;
      if left == 0 then connections - {b} else connections[b := left]
  }

  lemma AddedTallies(connections: map<string, int>, log: seq<Op>, b: string)
    requires Tallies(connections, log) && Fits(log + [Opened(b)])
    ensures Tallies(Added(connections, b), log + [Opened(b)])
  {
    forall x ensures Tally(Added(connections, b), log + [Opened(b)], x) {
      Logged(log, Opened(b), x);
      assert Tally(connections, log, x);
    }
  }

  lemma RemovedTallies(connections: map<string, int>, log: seq<Op>, b: string)
    requires Tallies(connections, log) && Fits(log + [Closed(b)])
    ensures Tallies(Removed(connections, b), log + [Closed(b)])
  {
    forall x ensures Tally(Removed(connections, b), log + [Closed(b)], x) {
      Logged(log, Closed(b), x);
      assert Tally(connections, log, x);
    }
  }

  lemma OtherTallies(connections: map<string, int>, log: seq<Op>, op: Op)
    requires Tallies(connections, log) && !op.Opened? && !op.Closed?
    ensures Tallies(connections, log + [op])
  {
    forall x ensures Tally(connections, log + [op], x) {
      Logged(log, op, x);
      assert Tally(connections, log, x);
    }
  }

  /** At no time were more connections of `b` closed than had been opened. */
  predicate Balanced(log: seq<Op>, b: string) {
    forall n :: 0 <= n <= |log| ==> multiset(log[..n])[Closed(b)] <= multiset(log[..n])[Opened(b)]
  }

  lemma BalancedSnoc(log: seq<Op>, last: Op, b: string)
    ensures Balanced(log + [last], b) <==>
            Balanced(log, b) && multiset(log + [last])[Closed(b)] <= multiset(log + [last])[Opened(b)]
  {
    var longer := log + [last];
    assert forall n :: 0 <= n <= |log| ==> longer[..n] == log[..n];
    assert longer[..|longer|] == longer;
  }

  /** The tracker's count is opened minus closed exactly if every close matched an earlier open. */
  lemma {:induction false} OpenIsDifference(log: seq<Op>, b: string)
    ensures Open(log, b) + multiset(log)[Closed(b)] >= multiset(log)[Opened(b)]
    ensures Open(log, b) + multiset(log)[Closed(b)] == multiset(log)[Opened(b)] <==> Balanced(log, b)
  {
    if log == [] {
      assert forall n :: 0 <= n <= |log| ==> log[..n] == [];
    } else {
      var before, last := log[..|log| - 1], log[|log| - 1];
      OpenIsDifference(before, b);
      BalancedSnoc(before, last, b);
      assert log == before + [last];
      assert multiset(log) == multiset(before) + multiset{last};
    }
  }

  /** A request counts until the next drain. */
  lemma {:induction false} FreshExactly(log: seq<Op>, b: string)
    ensures Fresh(log, b) <==> exists i :: 0 <= i < |log| && log[i] == Requested(b) && Drained !in log[i..]
  {
    if log != [] {
      var n := |log| - 1;
      FreshExactly(log[..n], b);
      assert forall i :: 0 <= i < n ==> log[i..] == log[..n][i..] + [log[n]] && log[..n][i] == log[i];
      assert log[n..] == [log[n]];
    }
  }

  /** What a drain must report, in terms of the calls alone. */
  lemma ActiveExactly(log: seq<Op>, b: string)
    requires Balanced(log, b)
    ensures Active(log, b) <==>
            || (exists i :: 0 <= i < |log| && log[i] == Requested(b) && Drained !in log[i..])
            || multiset(log)[Opened(b)] > multiset(log)[Closed(b)]
  {
    FreshExactly(log, b);
    OpenIsDifference(log, b);
  }

  lemma ReportedExactly(log: seq<Op>, active: seq<string>)
    requires forall b :: b in active <==> Active(log, b)
    ensures forall b :: Balanced(log, b) ==>
              (b in active <==>
                || (exists i :: 0 <= i < |log| && log[i] == Requested(b) && Drained !in log[i..])
                || multiset(log)[Opened(b)] > multiset(log)[Closed(b)])
  {
    forall b | Balanced(log, b) {
      ActiveExactly(log, b);
    }
  }

  /** The elements of a set, each once, in whatever order they are met. */
  method Collect(s: set<string>) returns (items: seq<string>)
    ensures forall b :: b in items <==> b in s
    ensures forall i, j :: 0 <= i < j < |items| ==> items[i] != items[j]
  {
    items := [];
    var rest := s;
    while rest != {}
      invariant rest <= s
      invariant forall b :: b in items <==> b in s - rest
      invariant forall i, j :: 0 <= i < j < |items| ==> items[i] != items[j]
      decreases |rest|
    {
      var b :| b in rest;
      assert b !in items;
      items := items + [b];
      rest := rest - {b};
    }
  }

  class Tracker {
    var requestEvents: set<string>
    var connections: map<string, int>
    ghost var log: seq<Op>

    /** The request set holds the backends with a fresh request, and unless a 32-bit counter has
        overflowed, the connection map holds exactly the positive counts. */
    ghost predicate Valid()
      reads this
    {
      && (forall b :: b in requestEvents <==> Fresh(log, b))
      && (Fits(log) ==> Tallies(connections, log))
    }

    constructor ()
      ensures Valid() && log == []
    {
      requestEvents, connections, log := {}, map[], [];
    }

    method TrackRequest(b: string)
      requires Valid()
      modifies this
      ensures Valid() && log == old(log) + [Requested(b)]
    {
      requestEvents := requestEvents + {b};
      log := log + [Requested(b)];
      forall x { Logged(old(log), Requested(b), x); }
      if Fits(log) {
        OtherTallies(connections, old(log), Requested(b));
      }
    }

    method IncrementConnections(b: string)
      requires Valid()
      modifies this
      ensures Valid() && log == old(log) + [Opened(b)]
    {
      connections := Added(connections, b);
      log := log + [Opened(b)];
      forall x { Logged(old(log), Opened(b), x); }
      if Fits(log) {
        AddedTallies(old(connections), old(log), b);
      }
    }

    method DecrementConnections(b: string)
      requires Valid()
      modifies this
      ensures Valid() && log == old(log) + [Closed(b)]
    {
      connections := Removed(connections, b);
      log := log + [Closed(b)];
      forall x { Logged(old(log), Closed(b), x); }
      if Fits(log) {
        RemovedTallies(old(connections), old(log), b);
      }
    }

    /** Backends with an open connection count as requested. */
    method AddConnected()
      modifies `requestEvents
      ensures requestEvents == old(requestEvents) + connections.Keys
    {
      var keys := connections.Keys;
      while keys != {}
        invariant keys <= connections.Keys
        invariant requestEvents == old(requestEvents) + (connections.Keys - keys)
        decreases |keys|
      {
        var conn :| conn in keys;
        requestEvents := requestEvents + {conn};
        keys := keys - {conn};
      }
    }

    lemma ConnectedIsOpen(events: set<string>)
      requires (forall b :: b in events <==> Fresh(log, b)) && Tallies(connections, log)
      ensures forall b :: b in events + connections.Keys <==> Active(log, b)
    {
      forall b ensures b in connections <==> Open(log, b) > 0 {
        assert Tally(connections, log, b);
      }
    }

    /** Reports, once each, exactly the backends with a request since the previous drain or with more
        connections opened than closed. */
    method GetAndClearActiveBackends() returns (active: seq<string>)
      requires Valid()
      modifies this
      ensures Valid() && log == old(log) + [Drained]
      ensures connections == old(connections)
      ensures Fits(old(log)) ==> forall b :: b in active <==> Active(old(log), b)
      ensures Fits(old(log)) ==> forall b :: Balanced(old(log), b) ==>
                (b in active <==>
                  || (exists i :: 0 <= i < |old(log)| && old(log)[i] == Requested(b) && Drained !in old(log)[i..])
                  || multiset(old(log))[Opened(b)] > multiset(old(log))[Closed(b)])
      ensures forall i, j :: 0 <= i < j < |active| ==> active[i] != active[j]
    {
      if Fits(log) {
        ConnectedIsOpen(requestEvents);
      }
      AddConnected();
      active := Collect(requestEvents);
      requestEvents := {};
      if Fits(log) {
        ReportedExactly(log, active);
      }
      log := log + [Drained];
      forall x { Logged(old(log), Drained, x); }
      if Fits(log) {
        OtherTallies(connections, old(log), Drained);
      }
    }
  }

  /** The connection map is empty exactly when every connection has been closed, and no stored
      count is ever zero. */
  lemma EmptyWhenClosed(t: Tracker)
    requires t.Valid() && Fits(t.log)
    ensures t.connections.Keys == {} <==> forall b :: Open(t.log, b) == 0
    ensures forall b :: b in t.connections ==> 1 <= t.connections[b] < U32
  {
    forall b ensures Tally(t.connections, t.log, b) && (b in t.connections ==> t.connections[b] < U32) {
      Logged(t.log, Drained, b);
    }
    if t.connections.Keys == {} {
      forall b ensures Open(t.log, b) == 0 {
        assert Tally(t.connections, t.log, b) && b !in t.connections.Keys;
      }
    } else {
      var b :| b in t.connections.Keys;
      assert Tally(t.connections, t.log, b);
      assert Open(t.log, b) != 0;
    }
  }
}
