/** Runs that wait for the listener map: they hold the agent's one thread, and may never let it go. */
module ThreadTheorems {
  import opened Lifecycle
  import opened Protocol
  import opened ProtocolInvariants
  import opened Continuations
  import opened ProtocolTheorems
  import opened TerminalTheorems

  /** A kill request waiting to send, for this backend or for another one in the same shard, keeps the
      listener map from changing there. */
  predicate MapLocked(w: World, id: BackendId)
    requires id in w.locals
  {
    (w.locals[id].run.Some? && Locked(w.locals[id].run.value)) || Barred(w, id)
  }

  /** The run holds the thread and cannot insert or remove its listener. */
  predicate Stuck(w: World, id: BackendId)
    requires id in w.locals
  {
    Holding(w.locals[id]) && MapLocked(w, id)
  }

  /** No run is stuck. */
  predicate Flows(w: World) {
    forall id :: id in w.locals ==> !Stuck(w, id)
  }

  /** The agent has done nothing for or to the backend; an engine call may have gone on. */
  predicate Untouched(l: Local, m: Local) {
    && (m.row, m.written, m.published, m.listener, m.monitor) == (l.row, l.written, l.published, l.listener, l.monitor)
    && (l.run.None? <==> m.run.None?)
    && (l.run.Some? ==>
          var r, s := l.run.value, m.run.value;
          s == r.(phase := s.phase) && (s.phase == r.phase || (r.phase.Attempt? && s.phase.Attempt?)))
  }

  lemma LocalUntouched(l: Local, act: LocalAction, stream: Stream)
    requires LocalEnabled(l, act, stream)
    requires Remote(act) || (Holding(l) && act != Enters && act != Leaves)
    ensures Untouched(l, LocalAfter(l, act, stream))
  {
  }

  lemma OnlyRemote(w: World, id: BackendId, other: BackendId, act: LocalAction)
    requires Enabled(w, Acts(other, act)) && id in w.locals && Stuck(w, id)
    ensures Remote(act) || (other == id && act != Enters && act != Leaves)
  {
  }

  /** While a run is stuck, the agent stands still. */
  lemma StuckStep(w: World, a: Action, id: BackendId, other: BackendId)
    requires Enabled(w, a) && a != Crashes && w.mode == Serving && id in w.locals && Stuck(w, id)
    requires other in w.locals
    ensures After(w, a).mode == Serving && After(w, a).locals.Keys == w.locals.Keys && After(w, a).shards == w.shards
    ensures Untouched(w.locals[other], After(w, a).locals[other])
  {
    if a.Acts? {
      OnlyRemote(w, id, a.id, a.act);
      LocalUntouched(w.locals[a.id], a.act, w.stream);
    }
  }

  lemma UntouchedIsStuck(w: World, v: World, id: BackendId)
    requires id in w.locals && Stuck(w, id) && v.locals.Keys == w.locals.Keys && v.shards == w.shards
    requires forall other :: other in w.locals ==> Untouched(w.locals[other], v.locals[other])
    ensures Stuck(v, id)
  {
    if Barred(w, id) {
      var other :| && other in w.locals && other != id && ShardOf(w, other) == ShardOf(w, id)
                   && w.locals[other].run.Some? && Locked(w.locals[other].run.value);
      assert Untouched(w.locals[other], v.locals[other]);
      assert ShardOf(v, other) == ShardOf(v, id);
    }
  }

  /** A run that is stuck stops the whole agent until it crashes: no run of any backend proceeds, no
      state is stored or published, no backend is spawned, no kill request or event is taken. */
  lemma {:induction false} StuckForGood(w: World, acts: seq<Action>, id: BackendId, other: BackendId)
    requires w.mode == Serving && id in w.locals && Stuck(w, id) && other in w.locals
    requires Crashes !in acts && Perform(w, acts).Some?
    ensures
      var v := Perform(w, acts).value;
      v.locals.Keys == w.locals.Keys && Stuck(v, id) && Untouched(w.locals[other], v.locals[other])
    decreases |acts|
  {
    if acts != [] {
      forall b | b in w.locals ensures Untouched(w.locals[b], After(w, acts[0]).locals[b]) {
        StuckStep(w, acts[0], id, b);
      }
      StuckStep(w, acts[0], id, other);
      UntouchedIsStuck(w, After(w, acts[0]), id);
      StuckForGood(After(w, acts[0]), acts[1..], id, other);
    }
  }

  lemma LocalHolds(l: Local, act: LocalAction, stream: Stream)
    requires LocalEnabled(l, act, stream) && Remote(act) && Holding(LocalAfter(l, act, stream))
    ensures Holding(l)
  {
  }

  lemma HoldStep(w: World, a: Action, id: BackendId)
    requires Enabled(w, a) && id in After(w, a).locals && Holding(After(w, a).locals[id])
    ensures id in w.locals
    ensures Holding(w.locals[id]) || (a.Acts? && a.id == id && FreeFor(w, id))
  {
    if a.Acts? && a.id == id && Remote(a.act) {
      LocalHolds(w.locals[id], a.act, w.stream);
    }
  }

  /** Only one run at a time holds the thread. */
  predicate OneThread(w: World) {
    forall id :: id in w.locals && Holding(w.locals[id]) ==> FreeFor(w, id)
  }

  lemma OneThreadKept(w: World, a: Action, id: BackendId, other: BackendId)
    requires Enabled(w, a) && OneThread(w) && id in After(w, a).locals && other in After(w, a).locals
    requires Holding(After(w, a).locals[id]) && Holding(After(w, a).locals[other])
    ensures id == other
  {
    HoldStep(w, a, id);
    HoldStep(w, a, other);
  }

  lemma {:induction false} OneHolds(ws: seq<World>, acts: seq<Action>, i: nat)
    requires Behaviour(ws, acts) && i < |ws|
    ensures OneThread(ws[i])
  {
    if i > 0 {
      OneHolds(ws, acts, i - 1);
      forall id, other | id in ws[i].locals && other in ws[i].locals && Holding(ws[i].locals[id]) && other != id
        ensures !Holding(ws[i].locals[other])
      {
        if Holding(ws[i].locals[other]) {
          OneThreadKept(ws[i - 1], acts[i - 1], id, other);
        }
      }
    }
  }

  /** The one action that a run holding the thread is about to take. */
  function Release(l: Local): LocalAction
    requires Holding(l)
  {
    if Departing(l) then Leaves else Enters
  }

  /** `more` lets a run insert or remove its listener, if one holds the thread; nothing else happens. */
  predicate Clears(w: World, more: seq<Action>) {
    var v := Perform(w, more);
    && (forall k :: 0 <= k < |more| ==> more[k].Acts? && (more[k].act == Leaves || more[k].act == Enters))
    && v.Some? && Free(v.value) && v.value.stream == w.stream && v.value.locals.Keys == w.locals.Keys
    && (forall id :: id in w.locals && !Holding(w.locals[id]) ==> v.value.locals[id] == w.locals[id])
    && (forall id :: id in w.locals && Departing(w.locals[id]) ==> v.value.locals[id].run.None?)
    && (forall id :: id in w.locals && Holding(w.locals[id]) && !Departing(w.locals[id]) ==>
          v.value.locals[id].run.Some? && v.value.locals[id].run.value.phase.Attempt?)
  }

  lemma LocalReleases(l: Local, stream: Stream)
    requires Holding(l) && !Locked(l.run.value)
    ensures
      var end := Play(l, [Release(l)], stream);
      && end.Some? && !Holding(end.value)
      && (if Departing(l) then end.value.run.None? else end.value.run.Some? && end.value.run.value.phase.Attempt?)
  {
    PlayOne(l, Release(l), [], stream);
  }

  /** Unless a run is stuck, the thread becomes free. */
  lemma ThreadClears(ws: seq<World>, acts: seq<Action>, i: nat)
    requires Behaviour(ws, acts) && i < |ws|
    requires Flows(ws[i])
    ensures exists more :: Clears(ws[i], more)
  {
    var w := ws[i];
    if other :| other in w.locals && Holding(w.locals[other]) {
      OneHolds(ws, acts, i);
      assert !Stuck(w, other);
      var plan := [Release(w.locals[other])];
      LocalReleases(w.locals[other], w.stream);
      PlayPerforms(w, other, plan);
      assert Clears(w, About(other, plan));
    } else {
      assert Clears(w, []);
    }
  }

  /** After the actions `more`, none of them a crash, the run of `id` has finished. */
  predicate Finishes(w: World, more: seq<Action>, id: BackendId) {
    var v := Perform(w, more);
    Crashes !in more && v.Some? && id in v.value.locals && v.value.locals[id].run.None?
  }

  /** After the actions `more`, none of them a crash, the run of `id` has begun its loop. */
  predicate Starts(w: World, more: seq<Action>, id: BackendId) {
    var v := Perform(w, more);
    && Crashes !in more && v.Some? && id in v.value.locals
    && v.value.locals[id].run.Some? && v.value.locals[id].run.value.phase.Attempt?
  }

  lemma HolderClears(ws: seq<World>, acts: seq<Action>, i: nat, id: BackendId)
    requires Behaviour(ws, acts) && i < |ws| && id in ws[i].locals && Holding(ws[i].locals[id]) && !MapLocked(ws[i], id)
    ensures exists more :: Clears(ws[i], more)
  {
    OneHolds(ws, acts, i);
    ThreadClears(ws, acts, i);
  }

  /** A run that has left its loop can finish without a crash if and only if no kill request for its
      backend, or for another one in its shard of the listener map, is waiting to send. */
  lemma ExitExactly(ws: seq<World>, acts: seq<Action>, i: nat, id: BackendId)
    requires Behaviour(ws, acts) && i < |ws| && id in ws[i].locals && Departing(ws[i].locals[id])
    ensures (exists more :: Finishes(ws[i], more, id)) <==> !MapLocked(ws[i], id)
  {
    InvariantHolds(ws, acts, i);
    if !MapLocked(ws[i], id) {
      HolderClears(ws, acts, i, id);
      var more :| Clears(ws[i], more);
      assert Finishes(ws[i], more, id);
    } else if more :| Finishes(ws[i], more, id) {
      StuckForGood(ws[i], more, id, id);
    }
  }

  /** A run that inserts its listener can begin its loop without a crash under the same condition. */
  lemma EntryExactly(ws: seq<World>, acts: seq<Action>, i: nat, id: BackendId)
    requires Behaviour(ws, acts) && i < |ws| && id in ws[i].locals && Holding(ws[i].locals[id]) && !Departing(ws[i].locals[id])
    ensures (exists more :: Starts(ws[i], more, id)) <==> !MapLocked(ws[i], id)
  {
    InvariantHolds(ws, acts, i);
    if !MapLocked(ws[i], id) {
      HolderClears(ws, acts, i, id);
      var more :| Clears(ws[i], more);
      assert Starts(ws[i], more, id);
    } else if more :| Starts(ws[i], more, id) {
      StuckForGood(ws[i], more, id, id);
    }
  }

  lemma KillAfter(w: World, clear: seq<Action>, id: BackendId, state: BackendState)
    requires Clears(w, clear) && id in w.locals && !Holding(w.locals[id])
    requires w.locals[id].row == Some(state) && state != Terminated && w.locals[id].listener
    requires
      var run := w.locals[id].run;
      run.Some? && run.value.phase.Attempt? && run.value.state != Swept
    ensures exists more :: Crashes !in more && Overwritten(w, more, id, state)
  {
    var v, l := Perform(w, clear).value, w.locals[id];
    var plan := KillPlan(l, w.stream) + [Persists(true)];
    KillIsStored(l, w.stream);
    PlayPerforms(v, id, plan);
    PerformConcat(w, clear, About(id, plan));
    assert Crashes !in clear + About(id, plan) && Overwritten(w, clear + About(id, plan), id, state);
  }

  lemma RunIsKillable(ws: seq<World>, acts: seq<Action>, i: nat, id: BackendId, state: BackendState)
    requires Behaviour(ws, acts) && i < |ws| && id in ws[i].locals
    requires ws[i].locals[id].row == Some(state) && state.Terminal() && state != Swept
    requires ws[i].locals[id].run.Some? && ws[i].locals[id].run.value.phase.Attempt?
    ensures ws[i].mode == Serving && ws[i].locals[id].listener && ws[i].locals[id].run.value.state != Swept
  {
    InvariantHolds(ws, acts, i);
    assert Owned(ws[i].locals[id]) && Disciplined(ws[i].locals[id]);
  }

  /** A terminal state other than Swept and Terminated can be overwritten without a restart from every
      attempt, that is until its container has been stopped, exactly if no run is stuck. */
  lemma AttemptCanBeOverwritten(ws: seq<World>, acts: seq<Action>, i: nat, id: BackendId, state: BackendState)
    requires Behaviour(ws, acts) && i < |ws| && id in ws[i].locals
    requires ws[i].locals[id].row == Some(state) && state.Terminal() && state != Swept && state != Terminated
    requires ws[i].locals[id].run.Some? && ws[i].locals[id].run.value.phase.Attempt?
    ensures (exists more :: Crashes !in more && Overwritten(ws[i], more, id, state)) <==> Flows(ws[i])
  {
    RunIsKillable(ws, acts, i, id, state);
    if Flows(ws[i]) {
      ThreadClears(ws, acts, i);
      var clear :| Clears(ws[i], clear);
      KillAfter(ws[i], clear, id, state);
    } else if more :| Crashes !in more && Overwritten(ws[i], more, id, state) {
      var other :| other in ws[i].locals && Stuck(ws[i], other);
      StuckForGood(ws[i], more, other, id);
    }
  }
}
