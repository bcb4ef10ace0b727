/** Runs that leave their loop, and the backends they leave behind. */
module DepartureTheorems {
  import opened Lifecycle
  import opened Protocol
  import opened ProtocolInvariants
  import opened ProtocolTheorems

  /** No run looks after the backend any more. */
  predicate Deserted(l: Local) {
    l.run.None? || Departing(l)
  }

  lemma LocalDeserted(l: Local, act: LocalAction, stream: Stream)
    requires LocalEnabled(l, act, stream) && Deserted(l)
    ensures
      var m := LocalAfter(l, act, stream);
      && Deserted(m) && (l.run.None? ==> m.run.None?)
      && (m.row, m.written, m.published, m.clean) == (l.row, l.written, l.published, l.clean)
  {
  }

  lemma DesertedStays(w: World, a: Action, id: BackendId)
    requires Enabled(w, a) && a != Crashes && w.mode == Serving && id in w.locals && Deserted(w.locals[id])
    ensures After(w, a).mode == Serving && id in After(w, a).locals
    ensures
      var l, m := w.locals[id], After(w, a).locals[id];
      && Deserted(m) && (l.run.None? ==> m.run.None?)
      && (m.row, m.written, m.published, m.clean) == (l.row, l.written, l.published, l.clean)
  {
    if a.Acts? && a.id == id {
      LocalDeserted(w.locals[id], a.act, w.stream);
    }
  }

  /** A backend whose run has left its loop is on its own until the agent restarts, whatever its
      container does and whoever asks to kill it: its stored state stays, nothing is published, and
      once the run has finished, kill requests find no listener. */
  lemma {:induction false} LeftIsFinal(ws: seq<World>, acts: seq<Action>, i: nat, j: nat, id: BackendId)
    requires Behaviour(ws, acts) && i <= j < |ws| && id in ws[i].locals
    requires ws[i].mode == Serving && Deserted(ws[i].locals[id]) && Crashes !in acts[i..j]
    ensures id in ws[j].locals && ws[j].mode == Serving
    ensures
      var l, m := ws[i].locals[id], ws[j].locals[id];
      && Deserted(m) && (l.run.None? ==> m.run.None?)
      && (m.row, m.written, m.published) == (l.row, l.written, l.published)
      && (m.run.None? ==> !m.listener && !m.monitor)
    decreases j - i
  {
    InvariantHolds(ws, acts, j);
    if i < j {
      assert acts[i] == acts[i..j][0] && acts[i + 1..j] == acts[i..j][1..];
      DesertedStays(ws[i], acts[i], id);
      LeftIsFinal(ws, acts, i + 1, j, id);
    }
  }

  // ---- backends without a run -------------------------------------------------------------

  /** A call that a step of Starting or Ready awaited has failed. */
  predicate CallFails(a: Action, id: BackendId) {
    && a.Acts? && a.id == id && a.act.Steps?
    && a.act.step in {StatusReturns(false), PortReturns(false), RouteReturns(false), IdleReturns(false)}
  }

  /** The stop of the container has returned, or the last word on a failed load has been published. */
  predicate Concludes(l: Local, a: Action, id: BackendId) {
    && a.Acts? && a.id == id
    && (|| (a.act.Steps? && a.act.step.StopReturns?)
        || (a.act.Publishes? && l.run.Some? && l.run.value.phase == Publishing(true)))
  }

  lemma LocalEnds(l: Local, act: LocalAction, id: BackendId, stream: Stream)
    requires LocalEnabled(l, act, stream) && Owned(l) && !Deserted(l)
    ensures Deserted(LocalAfter(l, act, stream)) <==> CallFails(Acts(id, act), id) || Concludes(l, Acts(id, act), id)
    ensures Deserted(LocalAfter(l, act, stream)) ==> LocalAfter(l, act, stream).row == l.row
  {
  }

  /** A run leaves its loop exactly when a call that a Starting or Ready step awaits fails, the stop of
      its container returns, or a failed load has been published. */
  lemma EndsExactly(ws: seq<World>, acts: seq<Action>, i: nat, id: BackendId)
    requires Behaviour(ws, acts) && i < |acts| && id in ws[i].locals && !Deserted(ws[i].locals[id]) && acts[i] != Crashes
    ensures id in ws[i + 1].locals
    ensures Deserted(ws[i + 1].locals[id]) <==> CallFails(acts[i], id) || Concludes(ws[i].locals[id], acts[i], id)
    ensures Deserted(ws[i + 1].locals[id]) ==> ws[i + 1].locals[id].row == ws[i].locals[id].row
  {
    InvariantHolds(ws, acts, i);
    if acts[i].Acts? && acts[i].id == id {
      LocalEnds(ws[i].locals[id], acts[i].act, id, ws[i].stream);
    }
  }

  /** The run of the backend left its loop at `j`, and the agent has not crashed since. */
  predicate EndedAt(ws: seq<World>, acts: seq<Action>, j: nat, i: nat, id: BackendId) {
    && j < i < |ws| && |ws| == |acts| + 1 && Crashes !in acts[j..i] && id in ws[j].locals
    && (CallFails(acts[j], id) || Concludes(ws[j].locals[id], acts[j], id))
  }

  lemma EndedLonger(ws: seq<World>, acts: seq<Action>, j: nat, i: nat, id: BackendId)
    requires EndedAt(ws, acts, j, i, id) && i < |acts| && acts[i] != Crashes
    ensures EndedAt(ws, acts, j, i + 1, id)
  {
    assert acts[j..i + 1] == acts[j..i] + [acts[i]];
  }

  /** A backend of a serving drone that has no run and is in the table had one before. */
  lemma DesertedBefore(ws: seq<World>, acts: seq<Action>, i: nat, id: BackendId)
    requires Behaviour(ws, acts) && i < |acts| && id in ws[i + 1].locals && ws[i + 1].mode == Serving
    requires ws[i + 1].locals[id].row.Some? && Deserted(ws[i + 1].locals[id])
    ensures id in ws[i].locals && ws[i].mode == Serving && acts[i] != Crashes
    ensures Deserted(ws[i].locals[id]) ==> ws[i].locals[id].row == ws[i + 1].locals[id].row
  {
    InvariantHolds(ws, acts, i);
    assert id in ws[i].locals;
    if Deserted(ws[i].locals[id]) && ws[i].mode == Serving && acts[i] != Crashes {
      DesertedStays(ws[i], acts[i], id);
    }
  }

  /** When the run of a deserted backend left its loop; the row has not changed since. */
  lemma {:induction false} WhenDeserted(ws: seq<World>, acts: seq<Action>, i: nat, id: BackendId) returns (j: nat)
    requires Behaviour(ws, acts) && i < |ws| && id in ws[i].locals && ws[i].mode == Serving
    requires ws[i].locals[id].row.Some? && Deserted(ws[i].locals[id])
    ensures EndedAt(ws, acts, j, i, id) && !Deserted(ws[j].locals[id])
    ensures ws[j].locals[id].row == ws[i].locals[id].row
  {
    assert i > 0;
    DesertedBefore(ws, acts, i - 1, id);
    if Deserted(ws[i - 1].locals[id]) {
      j := WhenDeserted(ws, acts, i - 1, id);
      EndedLonger(ws, acts, j, i - 1, id);
    } else {
      j := i - 1;
      EndsExactly(ws, acts, j, id);
    }
  }

  lemma LocalHasRun(l: Local, a: Action, id: BackendId, stream: Stream)
    requires a.Acts? && a.id == id && LocalEnabled(l, a.act, stream) && (CallFails(a, id) || Concludes(l, a, id))
    ensures !Deserted(l)
  {
  }

  lemma EndedIsDeserted(ws: seq<World>, acts: seq<Action>, j: nat, i: nat, id: BackendId)
    requires Behaviour(ws, acts) && EndedAt(ws, acts, j, i, id)
    ensures id in ws[i].locals && Deserted(ws[i].locals[id])
  {
    InvariantHolds(ws, acts, j);
    assert Enabled(ws[j], acts[j]) && acts[j] in acts[j..i];
    LocalHasRun(ws[j].locals[id], acts[j], id, ws[j].stream);
    EndsExactly(ws, acts, j, id);
    assert acts[j + 1..i] == acts[j..i][1..];
    LeftIsFinal(ws, acts, j + 1, i, id);
  }

  // ---- abandoned backends -----------------------------------------------------------------

  predicate StoredAsRunning(l: Local) {
    l.row.Some? && !l.row.value.Terminal()
  }

  /** The run holds a state that should be stored and is not. */
  predicate Unsaved(l: Local) {
    l.run.Some? && !l.run.value.phase.Writing? && l.row.Some? && l.row != Some(l.run.value.state)
  }

  /** At `k` the write of `state` failed, and the agent has not crashed since. */
  predicate LostWrite(ws: seq<World>, acts: seq<Action>, k: nat, i: nat, id: BackendId, state: BackendState) {
    && k < i < |ws| && |ws| == |acts| + 1 && Crashes !in acts[k..i] && acts[k] == Acts(id, Persists(false))
    && id in ws[k].locals && ws[k].locals[id].run.Some? && ws[k].locals[id].run.value.state == state
  }

  lemma LostLonger(ws: seq<World>, acts: seq<Action>, k: nat, i: nat, id: BackendId, state: BackendState)
    requires LostWrite(ws, acts, k, i, id, state) && i < |acts| && acts[i] != Crashes
    ensures LostWrite(ws, acts, k, i + 1, id, state)
  {
    assert acts[k..i + 1] == acts[k..i] + [acts[i]];
  }

  lemma LocalUnsaved(l: Local, act: LocalAction, stream: Stream)
    requires LocalEnabled(l, act, stream) && Unsaved(LocalAfter(l, act, stream))
    ensures l.run.Some? && l.run.value.state == LocalAfter(l, act, stream).run.value.state
    ensures act == Persists(false) || Unsaved(l)
  {
  }

  lemma UnsavedBefore(ws: seq<World>, acts: seq<Action>, i: nat, id: BackendId)
    requires Behaviour(ws, acts) && i < |acts| && id in ws[i + 1].locals && Unsaved(ws[i + 1].locals[id])
    ensures id in ws[i].locals && acts[i] != Crashes && ws[i].locals[id].run.Some?
    ensures ws[i].locals[id].run.value.state == ws[i + 1].locals[id].run.value.state
    ensures acts[i] == Acts(id, Persists(false)) || Unsaved(ws[i].locals[id])
  {
    InvariantHolds(ws, acts, i);
    if acts[i].Acts? && acts[i].id == id {
      LocalUnsaved(ws[i].locals[id], acts[i].act, ws[i].stream);
    }
  }

  /** What is not stored although it should be was lost in a failed write. */
  lemma {:induction false} UnsavedWasLost(ws: seq<World>, acts: seq<Action>, i: nat, id: BackendId) returns (k: nat)
    requires Behaviour(ws, acts) && i < |ws| && id in ws[i].locals && Unsaved(ws[i].locals[id])
    ensures LostWrite(ws, acts, k, i, id, ws[i].locals[id].run.value.state)
  {
    assert i > 0;
    UnsavedBefore(ws, acts, i - 1, id);
    if acts[i - 1] == Acts(id, Persists(false)) {
      k := i - 1;
      assert acts[k..i] == [acts[k]];
    } else {
      assert Unsaved(ws[i - 1].locals[id]);
      k := UnsavedWasLost(ws, acts, i - 1, id);
      LostLonger(ws, acts, k, i - 1, id, ws[i].locals[id].run.value.state);
    }
  }

  /** A call of the backend failed at `j`, and the agent has not crashed since. */
  predicate GaveUp(acts: seq<Action>, j: nat, i: nat, id: BackendId) {
    j < i <= |acts| && CallFails(acts[j], id) && Crashes !in acts[j..i]
  }

  /** At `k` the write of a terminal state failed, at `j` the run was done all the same, and the agent
      has not crashed since. */
  predicate LostTrack(ws: seq<World>, acts: seq<Action>, k: nat, j: nat, i: nat, id: BackendId) {
    && j < i < |ws| && |ws| == |acts| + 1 && id in ws[j].locals && ws[j].locals[id].run.Some?
    && ws[j].locals[id].run.value.state.Terminal() && LostWrite(ws, acts, k, j, id, ws[j].locals[id].run.value.state)
    && Concludes(ws[j].locals[id], acts[j], id) && Crashes !in acts[j..i]
  }

  lemma ConcludesUnsaved(l: Local, act: LocalAction, id: BackendId, stream: Stream)
    requires LocalEnabled(l, act, stream) && Concludes(l, Acts(id, act), id) && Disciplined(l) && StoredAsRunning(l)
    ensures l.run.value.state.Terminal() && Unsaved(l)
  {
  }

  lemma FailsRunning(l: Local, act: LocalAction, id: BackendId, stream: Stream)
    requires LocalEnabled(l, act, stream) && CallFails(Acts(id, act), id) && Echoed(l) && l.clean
    ensures StoredAsRunning(l)
  {
  }

  /** While no write of the backend has failed, an action makes its run leave it behind as running
      if and only if the action is the failure of a call that a Starting or Ready step awaits. */
  lemma AbandonsExactly(ws: seq<World>, acts: seq<Action>, i: nat, id: BackendId)
    requires Behaviour(ws, acts) && i < |acts| && id in ws[i].locals && ws[i].locals[id].clean
    requires !Deserted(ws[i].locals[id]) && acts[i] != Crashes
    ensures id in ws[i + 1].locals
    ensures Deserted(ws[i + 1].locals[id]) && StoredAsRunning(ws[i + 1].locals[id]) <==> CallFails(acts[i], id)
  {
    InvariantHolds(ws, acts, i);
    assert Enabled(ws[i], acts[i]);
    EndsExactly(ws, acts, i, id);
    var l := ws[i].locals[id];
    assert Echoed(l) && Disciplined(l);
    if Concludes(l, acts[i], id) && StoredAsRunning(l) {
      ConcludesUnsaved(l, acts[i].act, id, ws[i].stream);
    }
    if CallFails(acts[i], id) {
      FailsRunning(l, acts[i].act, id, ws[i].stream);
    }
  }

  lemma DesertedHasCause(ws: seq<World>, acts: seq<Action>, i: nat, id: BackendId)
    requires Behaviour(ws, acts) && i < |ws| && id in ws[i].locals && ws[i].mode == Serving
    requires StoredAsRunning(ws[i].locals[id]) && Deserted(ws[i].locals[id])
    ensures (exists j :: GaveUp(acts, j, i, id)) || (exists k, j :: LostTrack(ws, acts, k, j, i, id))
  {
    var j := WhenDeserted(ws, acts, i, id);
    if CallFails(acts[j], id) {
      assert GaveUp(acts, j, i, id);
    } else {
      InvariantHolds(ws, acts, j);
      assert Enabled(ws[j], acts[j]);
      ConcludesUnsaved(ws[j].locals[id], acts[j].act, id, ws[j].stream);
      var k := UnsavedWasLost(ws, acts, j, id);
      assert LostTrack(ws, acts, k, j, i, id);
    }
  }

  /** A backend that is stored as running is without a run if and only if, since the agent last started,
      a call awaited by its Starting or Ready step has failed, or the write of a terminal state has
      failed and the run has ended since. */
  lemma AbandonedExactly(ws: seq<World>, acts: seq<Action>, i: nat, id: BackendId)
    requires Behaviour(ws, acts) && i < |ws| && id in ws[i].locals && ws[i].mode == Serving
    requires StoredAsRunning(ws[i].locals[id])
    ensures Deserted(ws[i].locals[id]) <==>
            (exists j :: GaveUp(acts, j, i, id)) || (exists k, j :: LostTrack(ws, acts, k, j, i, id))
  {
    if Deserted(ws[i].locals[id]) {
      DesertedHasCause(ws, acts, i, id);
    }
    if j: nat :| GaveUp(acts, j, i, id) {
      assert Enabled(ws[j], acts[j]);
      EndedIsDeserted(ws, acts, j, i, id);
    }
    if k: nat, j: nat :| LostTrack(ws, acts, k, j, i, id) {
      EndedIsDeserted(ws, acts, j, i, id);
    }
  }
}
