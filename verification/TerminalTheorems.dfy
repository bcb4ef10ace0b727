/** Which stored terminal states are final. */
module TerminalTheorems {
  import opened Lifecycle
  import opened Protocol
  import opened ProtocolInvariants
  import opened Continuations
  import opened ProtocolTheorems
  import opened HistoryTheorems

  /** Only `Terminated` can be written over a terminal state, and never over `Swept`. */
  lemma TerminalRank(early: seq<BackendState>, late: seq<BackendState>)
    requires Ordered(late) && early != [] && early <= late && early[|early| - 1].Terminal()
    ensures
      var s, t := early[|early| - 1], late[|late| - 1];
      t == s || (t == Terminated && s != Swept && s != Terminated)
  {
    if |early| < |late| {
      RanksRise(late, |early| - 1, |late| - 1);
    }
  }

  lemma TerminatedWasKilled(ws: seq<World>, acts: seq<Action>, i: nat, id: BackendId)
    requires Behaviour(ws, acts) && i < |ws| && id in ws[i].locals && ws[i].locals[id].row == Some(Terminated)
    ensures Happened(acts, i, id, KillArrives)
  {
    RowIsLatest(ws, acts, i, id);
    StatesAreCaused(ws, acts, i, id);
    assert Caused(ws, acts, i, id, Terminated);
  }

  /** `BackendState::terminal` is documented as final. It nearly is: at any later point a stored
      terminal state is still there, or it was neither Swept nor Terminated, it is Terminated now,
      and a kill request for the backend has arrived. */
  lemma TerminalOverwrite(ws: seq<World>, acts: seq<Action>, i: nat, j: nat, id: BackendId, state: BackendState)
    requires Behaviour(ws, acts) && i <= j < |ws| && id in ws[i].locals
    requires ws[i].locals[id].row == Some(state) && state.Terminal()
    ensures id in ws[j].locals
    ensures
      || ws[j].locals[id].row == Some(state)
      || (&& ws[j].locals[id].row == Some(Terminated) && state != Swept && state != Terminated
          && Happened(acts, j, id, KillArrives))
  {
    HistoryGrows(ws, acts, i, j, id);
    RowIsLatest(ws, acts, i, id);
    RowIsLatest(ws, acts, j, id);
    TerminalRank(ws[i].locals[id].written, ws[j].locals[id].written);
    if ws[j].locals[id].row == Some(Terminated) {
      TerminatedWasKilled(ws, acts, j, id);
    }
  }

  /** After `more` the backend is stored in another state. */
  predicate Overwritten(w: World, more: seq<Action>, id: BackendId, state: BackendState) {
    var v := Perform(w, more);
    v.Some? && id in v.value.locals && v.value.locals[id].row != Some(state)
  }

  const RESTART := [Crashes, Boots(map[]), Resumes]

  /** After a restart every stored backend has a run that has not been scheduled yet. */
  lemma Restarts(w: World)
    ensures Perform(w, RESTART) ==
            Some(World(Serving, Unconnected, map id | id in w.locals :: Resumed(Crashed(w.locals[id])), w.routes, map[]))
  {
    var down := After(w, Crashes);
    var booted := After(down, Boots(map[]));
    assert RESTART[1..] == [Boots(map[]), Resumes] && RESTART[1..][1..] == [Resumes];
    assert Perform(w, RESTART) == Perform(down, [Boots(map[]), Resumes]) == Perform(booted, [Resumes]);
    assert After(booted, Resumes).locals == map id | id in w.locals :: Resumed(Crashed(w.locals[id]));
  }

  /** The run has been told to terminate and is about to store that. */
  predicate Terminating(l: Option<Local>, row: Option<BackendState>) {
    && l.Some? && l.value.row == row && l.value.run.Some?
    && l.value.run.value.state == Terminated && l.value.run.value.phase == Writing(false)
  }

  lemma TerminateTaken(l: Local, stream: Stream)
    requires l.run.Some? && l.run.value.phase.Attempt? && l.run.value.state != Swept
    requires l.run.value.channel == Full(Terminate)
    ensures Terminating(Play(l, [TakesSignal], stream), l.row)
  {
    PlayOne(l, TakesSignal, [], stream);
  }

  /** The kill request that comes next: the one waiting for the slot, or a new one. */
  function Kill(l: Local): LocalAction {
    if l.run.Some? && l.run.value.channel == Promised then KillSends else KillArrives
  }

  lemma KillDelivered(l: Local, stream: Stream)
    requires l.listener && l.run.Some? && l.run.value.phase.Attempt? && l.run.value.state != Swept
    requires !l.run.value.channel.Full?
    ensures Terminating(Play(l, [Kill(l), TakesSignal], stream), l.row)
  {
    var told := LocalAfter(l, Kill(l), stream);
    assert told.row == l.row;
    PlayOne(l, Kill(l), [TakesSignal], stream);
    TerminateTaken(told, stream);
  }

  /** What brings a kill request to an attempt, whatever is in the channel. */
  function KillPlan(l: Local, stream: Stream): seq<LocalAction>
    requires l.run.Some? && l.run.value.phase.Attempt? && l.run.value.state != Swept
  {
    match l.run.value.channel
    case Full(Terminate) => [TakesSignal]
    case Full(Interrupt) => [TakesSignal] + [Kill(LocalAfter(l, TakesSignal, stream)), TakesSignal]
    case _ => [Kill(l), TakesSignal]
  }

  lemma KillReaches(l: Local, stream: Stream)
    requires l.listener && l.run.Some? && l.run.value.phase.Attempt? && l.run.value.state != Swept
    ensures Terminating(Play(l, KillPlan(l, stream), stream), l.row)
  {
    match l.run.value.channel
    case Full(Terminate) => TerminateTaken(l, stream);
    case Full(Interrupt) =>
      var again := LocalAfter(l, TakesSignal, stream);
      PlayOne(l, TakesSignal, [Kill(again), TakesSignal], stream);
      KillDelivered(again, stream);
    case _ => KillDelivered(l, stream);
  }

  lemma KillIsStored(l: Local, stream: Stream)
    requires l.listener && l.run.Some? && l.run.value.phase.Attempt? && l.run.value.state != Swept && l.row.Some?
    ensures
      var end := Play(l, KillPlan(l, stream) + [Persists(true)], stream);
      end.Some? && end.value.row == Some(Terminated)
  {
    KillReaches(l, stream);
    PlayConcat(l, KillPlan(l, stream), [Persists(true)], stream);
    PlayOne(Play(l, KillPlan(l, stream), stream).value, Persists(true), [], stream);
  }

  /** A resumed run begins its loop. */
  lemma ResumedEnters(l: Local, rest: seq<LocalAction>, stream: Stream)
    requires l.row.Some?
    ensures
      var m := Enter(Resumed(l).(run := Some(Resumed(l).run.value.(phase := Entering))));
      && Play(Resumed(l), [Begins] + ([Enters] + rest), stream) == Play(m, rest, stream)
      && m.listener && m.row == l.row && m.run.Some? && m.run.value.phase.Attempt? && m.run.value.state == l.row.value
  {
    var begun := LocalAfter(Resumed(l), Begins, stream);
    PlayOne(Resumed(l), Begins, [Enters] + rest, stream);
    PlayOne(begun, Enters, rest, stream);
  }

  lemma KilledAfterRestart(l: Local, stream: Stream) returns (plan: seq<LocalAction>)
    requires l.row.Some? && l.row != Some(Swept)
    ensures
      var end := Play(Resumed(l), plan, stream);
      end.Some? && end.value.row == Some(Terminated)
  {
    var entered := Enter(Resumed(l).(run := Some(Resumed(l).run.value.(phase := Entering))));
    ResumedEnters(l, [], stream);
    var rest := KillPlan(entered, stream) + [Persists(true)];
    KillIsStored(entered, stream);
    ResumedEnters(l, rest, stream);
    plan := [Begins] + ([Enters] + rest);
  }

  lemma RestartAndKill(w: World, id: BackendId, state: BackendState)
    requires id in w.locals && w.locals[id].row == Some(state) && state != Swept && state != Terminated
    ensures exists more :: Overwritten(w, more, id, state)
  {
    Restarts(w);
    var v := Perform(w, RESTART).value;
    var plan := KilledAfterRestart(Crashed(w.locals[id]), v.stream);
    PlayPerforms(v, id, plan);
    PerformConcat(w, RESTART, About(id, plan));
    assert Overwritten(w, RESTART + About(id, plan), id, state);
  }

  /** A stored terminal state can still change exactly if it is neither Swept nor Terminated: every
      other one is overwritten when a kill request follows a restart, if not before. */
  lemma OverwriteExactly(ws: seq<World>, acts: seq<Action>, i: nat, id: BackendId, state: BackendState)
    requires Behaviour(ws, acts) && i < |ws| && id in ws[i].locals
    requires ws[i].locals[id].row == Some(state) && state.Terminal()
    ensures (exists more :: Overwritten(ws[i], more, id, state)) <==> state != Swept && state != Terminated
  {
    if more :| Overwritten(ws[i], more, id, state) {
      InvariantHolds(ws, acts, i);
      PerformKeeps(ws[i], more, id);
      assert Disciplined(ws[i].locals[id]) && Disciplined(Perform(ws[i], more).value.locals[id]);
      TerminalRank(ws[i].locals[id].written, Perform(ws[i], more).value.locals[id].written);
    }
    if state != Swept && state != Terminated {
      RestartAndKill(ws[i], id, state);
    }
  }
}
