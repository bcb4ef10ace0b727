/** Theorems about every behaviour of the drone: any interleaving of backends, engine events, kill
    requests, failing calls, crashes and restarts. */
module ProtocolTheorems {
  import opened Lifecycle
  import opened RunLoop
  import opened Protocol
  import opened ProtocolInvariants

  lemma {:induction false} InvariantHolds(ws: seq<World>, acts: seq<Action>, i: nat)
    requires Behaviour(ws, acts) && i < |ws|
    ensures Invariant(ws[i])
  {
    if i > 0 {
      InvariantHolds(ws, acts, i - 1);
      InvariantKept(ws[i - 1], acts[i - 1]);
    }
  }

  /** What an action that is not its own can make of a backend. */
  predicate Moved(l: Local, m: Local) {
    || m == l || m == Crashed(l) || m == Deafened(l) || (l.run.None? && m == Resumed(l))
    || (&& l.run.Some? && l.run.value.phase.Attempt? && l.run.value.phase.point.Routing?
        && m == l.(run := Some(l.run.value.(phase := Attempt(Routed(l.run.value.phase.point.addr))))))
  }

  lemma OtherMoves(w: World, a: Action, id: BackendId)
    requires Enabled(w, a) && id in w.locals && !(a.Acts? && a.id == id) && (a == Resumes ==> w.locals[id].run.None?)
    ensures id in After(w, a).locals && Moved(w.locals[id], After(w, a).locals[id])
    ensures a != Crashes && a != Resumes ==> (After(w, a).locals[id].run.None? <==> w.locals[id].run.None?)
  {
  }

  lemma OthersMove(ws: seq<World>, acts: seq<Action>, i: nat, id: BackendId)
    requires Behaviour(ws, acts) && i < |acts| && id in ws[i].locals && !(acts[i].Acts? && acts[i].id == id)
    ensures id in ws[i + 1].locals && Moved(ws[i].locals[id], ws[i + 1].locals[id])
    ensures acts[i] != Crashes && acts[i] != Resumes ==> (ws[i + 1].locals[id].run.None? <==> ws[i].locals[id].run.None?)
  {
    InvariantHolds(ws, acts, i);
    OtherMoves(ws[i], acts[i], id);
  }

  /** An action of its own makes of a backend what `LocalAfter` says. */
  lemma ItselfMoves(ws: seq<World>, acts: seq<Action>, i: nat, id: BackendId)
    requires Behaviour(ws, acts) && i < |acts| && acts[i].Acts? && acts[i].id == id
    ensures id in ws[i].locals && id in ws[i + 1].locals && LocalEnabled(ws[i].locals[id], acts[i].act, ws[i].stream)
    ensures ws[i + 1].locals[id] == LocalAfter(ws[i].locals[id], acts[i].act, ws[i].stream)
  {
  }

  // ---- lifecycle order --------------------------------------------------------------------

  lemma {:induction false} HistoryGrows(ws: seq<World>, acts: seq<Action>, i: nat, j: nat, id: BackendId)
    requires Behaviour(ws, acts) && i <= j < |ws| && id in ws[i].locals
    ensures id in ws[j].locals && ws[i].locals[id].written <= ws[j].locals[id].written
    decreases j - i
  {
    if i < j {
      InvariantHolds(ws, acts, i);
      InvariantKept(ws[i], acts[i]);
      HistoryGrows(ws, acts, i + 1, j, id);
    }
  }

  /** In an ordered history ranks never fall, and only `Terminated` repeats. */
  lemma {:induction false} RanksRise(trace: seq<BackendState>, i: nat, j: nat)
    requires Ordered(trace) && i < j < |trace|
    ensures trace[i].Rank() < trace[j].Rank() || trace[i] == trace[j] == Terminated
    ensures trace[i] != Swept && trace[j] != TimedOutBeforeReady && trace[j] != Loading
    decreases j - i
  {
    assert Follows(trace[i], trace[i + 1]);
    if i + 1 < j {
      RanksRise(trace, i + 1, j);
    }
  }

  /** Lifecycle order over whole runs. Across any signals, step errors, crashes and resumes, the
      states written for a backend only ever grow at the end; they start with Loading and strictly
      rise in rank except that Terminated may repeat; nothing follows Swept; TimedOutBeforeReady is
      never written; and while no database write failed, what was published was written before, in
      the same order. */
  lemma LifecycleOrder(ws: seq<World>, acts: seq<Action>, i: nat, j: nat, id: BackendId)
    requires Behaviour(ws, acts) && i <= j < |ws| && id in ws[i].locals
    ensures id in ws[j].locals
    ensures
      var early, late := ws[i].locals[id], ws[j].locals[id];
      && early.written <= late.written
      && (late.written != [] ==> late.written[0] == Loading)
      && (forall m, n :: 0 <= m < n < |late.written| ==>
            late.written[m].Rank() < late.written[n].Rank() || late.written[m] == late.written[n] == Terminated)
      && (forall m :: 0 <= m < |late.written| - 1 ==> late.written[m] != Swept)
      && TimedOutBeforeReady !in late.written
      && (late.clean ==> Subsequence(late.published, late.written))
  {
    HistoryGrows(ws, acts, i, j, id);
    InvariantHolds(ws, acts, j);
    var trace := ws[j].locals[id].written;
    forall m, n | 0 <= m < n < |trace|
      ensures trace[m].Rank() < trace[n].Rank() || trace[m] == trace[n] == Terminated
    {
      RanksRise(trace, m, n);
    }
    forall m | 0 <= m < |trace| - 1 ensures trace[m] != Swept {
      RanksRise(trace, m, m + 1);
    }
    forall m | 0 <= m < |trace| ensures trace[m] != TimedOutBeforeReady {
      if m > 0 {
        RanksRise(trace, 0, m);
      }
    }
  }

  /** The row is the last state written. */
  lemma RowIsLatest(ws: seq<World>, acts: seq<Action>, i: nat, id: BackendId)
    requires Behaviour(ws, acts) && i < |ws| && id in ws[i].locals
    ensures
      var l := ws[i].locals[id];
      && Ordered(l.written) && (l.row.None? <==> l.written == [])
      && (l.row.Some? ==> l.row.value == l.written[|l.written| - 1])
  {
    InvariantHolds(ws, acts, i);
  }

  // ---- the history of the environment -----------------------------------------------------

  /** `act` happened to backend `id` before point `i`. */
  predicate Happened(acts: seq<Action>, i: nat, id: BackendId, act: LocalAction) {
    exists j :: 0 <= j < i && j < |acts| && acts[j] == Acts(id, act)
  }

  ghost predicate Recorded(o: Origin, acts: seq<Action>, i: nat, id: BackendId) {
    && (forall addr :: addr in o.addresses ==> Happened(acts, i, id, EngineStarts(addr)))
    && (forall code :: code in o.deaths ==> Happened(acts, i, id, EngineDies(code)))
    && (o.killed ==> Happened(acts, i, id, KillArrives))
  }

  /** What one action adds to the history of a backend. */
  lemma OriginFrame(w: World, a: Action, id: BackendId)
    requires Enabled(w, a) && id in After(w, a).locals
    ensures
      var before := if id in w.locals then w.locals[id].origin else Origin({}, {}, false);
      After(w, a).locals[id].origin ==
        if !(a.Acts? && a.id == id) then before
        else match a.act
             case EngineStarts(addr) => before.(addresses := before.addresses + {addr})
             case EngineDies(code) => before.(deaths := before.deaths + {code})
             case KillArrives => before.(killed := true)
             case _ => before
  {
  }

  lemma {:induction false} OriginIsHistory(ws: seq<World>, acts: seq<Action>, i: nat, id: BackendId)
    requires Behaviour(ws, acts) && i < |ws| && id in ws[i].locals
    ensures Recorded(ws[i].locals[id].origin, acts, i, id)
  {
    if i > 0 {
      if id in ws[i - 1].locals {
        OriginIsHistory(ws, acts, i - 1, id);
      }
      OriginFrame(ws[i - 1], acts[i - 1], id);
      assert forall act :: Happened(acts, i - 1, id, act) ==> Happened(acts, i, id, act);
      assert acts[i - 1].Acts? && acts[i - 1].id == id ==> Happened(acts, i, id, acts[i - 1].act);
    }
  }

  // ---- ownership and attempts -------------------------------------------------------------

  /** Monitor and listener ownership. At every loop head the id is in the listener map, and in the
      monitor map whenever the state is Starting or Ready, also after a resume; after a run has left
      neither map holds the id; so a run can never find its sender lost. */
  lemma MapOwnership(ws: seq<World>, acts: seq<Action>, i: nat, id: BackendId)
    requires Behaviour(ws, acts) && i < |ws| && id in ws[i].locals
    ensures
      var l := ws[i].locals[id];
      && (l.run.None? ==> !l.listener && !l.monitor)
      && (l.run.Some? && l.run.value.phase.Attempt? ==>
            && l.listener && (l.run.value.state in {Starting, Ready} ==> l.monitor)
            && (l.run.value.state == Loading ==> !l.monitor))
      && !LocalEnabled(l, LosesSender, ws[i].stream)
  {
    InvariantHolds(ws, acts, i);
  }

  /** Refinement: at every point of every behaviour, each live run has made the attempts, received
      the signals, written and published the states and started the monitors that the sequential run
      loop does on some script, however the runs are interleaved. */
  lemma RunsRefineLoop(ws: seq<World>, acts: seq<Action>, i: nat, id: BackendId)
    requires Behaviour(ws, acts) && i < |ws| && id in ws[i].locals && ws[i].locals[id].run.Some?
    ensures exists script :: Matches(ws[i].locals[id], script)
  {
    InvariantHolds(ws, acts, i);
  }

  /** Termination bound. A run that started in `initial` and received n signals has begun at most
      n + 5 - initial.Stage() step attempts: at most n + 4, from whatever state it was started. */
  lemma AttemptBound(ws: seq<World>, acts: seq<Action>, i: nat, id: BackendId)
    requires Behaviour(ws, acts) && i < |ws| && id in ws[i].locals && ws[i].locals[id].run.Some?
    ensures
      var r := ws[i].locals[id].run.value;
      r.attempts <= r.received + 5 - r.initial.Stage() <= r.received + 4
  {
    InvariantHolds(ws, acts, i);
    var r := ws[i].locals[id].run.value;
    var script :| Matches(ws[i].locals[id], script);
    DriveBound(r.initial, script);
  }
}
