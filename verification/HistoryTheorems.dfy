/** What a drone has stored and published, read off the actions that happened to it. */
module HistoryTheorems {
  import opened Lifecycle
  import opened Protocol
  import opened ProtocolInvariants
  import opened ProtocolTheorems

  // ---- which action chooses which state ---------------------------------------------------

  /** The run has chosen `state` and not yet written it. */
  predicate Choosing(l: Local, state: BackendState) {
    l.run.Some? && l.run.value.phase.Writing? && l.run.value.state == state
  }

  /** The engine's answer about the container reaches an attempt in `state`, and says `seen`. */
  predicate Answered(l: Local, act: LocalAction, state: BackendState, seen: Container) {
    && l.run.Some? && l.run.value.state == state && l.run.value.phase == Attempt(Inspected(seen))
    && act == Steps(StatusReturns(true))
  }

  /** The events that lead a run to `state`. */
  ghost predicate LeadsTo(l: Local, act: LocalAction, state: BackendState) {
    match state
    case Starting => act == Steps(LoadReturns(true))
    case ErrorLoading => act == Steps(LoadReturns(false))
    case Ready => act == Steps(RouteReturns(true))
    case ErrorStarting => exists seen :: Answered(l, act, Starting, seen) && !seen.Live?
    case Failed => exists code :: Answered(l, act, Ready, Dead(Some(code))) && code != 0
    case Exited => Answered(l, act, Ready, Dead(Some(0)))
    case Swept => act == Steps(IdleReturns(true)) || Answered(l, act, Ready, Dead(None))
    case Terminated => act == TakesSignal && l.run.Some? && l.run.value.channel == Full(Terminate)
    case _ => false
  }

  lemma SignalChooses(l: Local, stream: Stream, state: BackendState)
    requires LocalEnabled(l, TakesSignal, stream)
    ensures Choosing(LocalAfter(l, TakesSignal, stream), state) <==> LeadsTo(l, TakesSignal, state)
  {
  }

  lemma StartingAnswered(l: Local, stream: Stream, seen: Container)
    requires LocalEnabled(l, Steps(StatusReturns(true)), stream) && Answered(l, Steps(StatusReturns(true)), Starting, seen)
    ensures
      var s := LocalAfter(l, Steps(StatusReturns(true)), stream).run.value;
      if seen.Live? then s.phase.Attempt? else s.phase == Writing(false) && s.state == ErrorStarting
  {
  }

  lemma ReadyAnswered(l: Local, stream: Stream, seen: Container)
    requires LocalEnabled(l, Steps(StatusReturns(true)), stream) && Answered(l, Steps(StatusReturns(true)), Ready, seen)
    ensures
      var s := LocalAfter(l, Steps(StatusReturns(true)), stream).run.value;
      if seen.Dead? then
        s.phase == Writing(false) && s.state == if seen.code == None then Swept else if seen.code == Some(0) then Exited else Failed
      else
        s.phase.Attempt?
  {
  }

  lemma AnswerChooses(l: Local, stream: Stream, state: BackendState)
    requires LocalEnabled(l, Steps(StatusReturns(true)), stream)
    ensures Choosing(LocalAfter(l, Steps(StatusReturns(true)), stream), state) <==>
            LeadsTo(l, Steps(StatusReturns(true)), state)
  {
    var seen := l.run.value.phase.point.seen;
    if l.run.value.state == Starting {
      StartingAnswered(l, stream, seen);
    } else {
      ReadyAnswered(l, stream, seen);
    }
  }

  lemma StepChooses(l: Local, step: StepAction, stream: Stream, state: BackendState)
    requires LocalEnabled(l, Steps(step), stream) && step != StatusReturns(true)
    ensures Choosing(LocalAfter(l, Steps(step), stream), state) <==> LeadsTo(l, Steps(step), state)
  {
  }

  lemma RestChooses(l: Local, act: LocalAction, stream: Stream, state: BackendState)
    requires LocalEnabled(l, act, stream) && !(l.run.Some? && l.run.value.phase.Writing?)
    requires !act.Steps? && !act.TakesSignal?
    ensures !Choosing(LocalAfter(l, act, stream), state) && !LeadsTo(l, act, state)
  {
  }

  lemma LocalChooses(l: Local, act: LocalAction, stream: Stream, state: BackendState)
    requires LocalEnabled(l, act, stream) && !(l.run.Some? && l.run.value.phase.Writing?)
    ensures Choosing(LocalAfter(l, act, stream), state) <==> LeadsTo(l, act, state)
  {
    if act == Steps(StatusReturns(true)) {
      AnswerChooses(l, stream, state);
    } else if act.Steps? {
      StepChooses(l, act.step, stream, state);
    } else if act.TakesSignal? {
      SignalChooses(l, stream, state);
    } else {
      RestChooses(l, act, stream, state);
    }
  }

  lemma MovedChoosesNot(l: Local, m: Local, state: BackendState)
    requires Moved(l, m) && !(l.run.Some? && l.run.value.phase.Writing?)
    ensures !Choosing(m, state)
  {
  }

  /** A run comes to choose a state by exactly these events: what a step makes of each answer of the
      engine, the database and the idle loop, and what a kill request does. */
  lemma ChoosesExactly(ws: seq<World>, acts: seq<Action>, i: nat, id: BackendId, state: BackendState)
    requires Behaviour(ws, acts) && i < |acts| && id in ws[i].locals
    requires !(ws[i].locals[id].run.Some? && ws[i].locals[id].run.value.phase.Writing?)
    ensures id in ws[i + 1].locals
    ensures Choosing(ws[i + 1].locals[id], state) <==>
            acts[i].Acts? && acts[i].id == id && LeadsTo(ws[i].locals[id], acts[i].act, state)
  {
    if !(acts[i].Acts? && acts[i].id == id) {
      OthersMove(ws, acts, i, id);
      MovedChoosesNot(ws[i].locals[id], ws[i + 1].locals[id], state);
    } else {
      ItselfMoves(ws, acts, i, id);
      var l, act, stream := ws[i].locals[id], acts[i].act, ws[i].stream;
      LocalChooses(l, act, stream, state);
      assert ws[i + 1].locals[id] == LocalAfter(l, act, stream);
    }
  }

  /** A backend that has got somewhere was there before: a new one is only announced. */
  lemma ComesFrom(ws: seq<World>, acts: seq<Action>, i: nat, id: BackendId)
    requires Behaviour(ws, acts) && i < |acts| && id in ws[i + 1].locals
    requires !(ws[i + 1].locals[id].run.Some? && ws[i + 1].locals[id].run.value.phase == Announcing)
    ensures id in ws[i].locals
  {
  }

  // ---- an answer of the engine is true ----------------------------------------------------

  /** At `k` the engine looked at the container of `id` for the attempt that is still waiting for the
      answer at `i`. */
  predicate AskedAt(ws: seq<World>, acts: seq<Action>, k: nat, i: nat, id: BackendId) {
    && k < i < |ws| && |ws| == |acts| + 1 && acts[k] == Acts(id, Steps(StatusReads)) && id in ws[k].locals
    && id in ws[i].locals && ws[i].locals[id].run.Some? && ws[k].locals[id].run.Some?
    && ws[i].locals[id].run.value.attempts == ws[k].locals[id].run.value.attempts
    && ws[i].locals[id].run.value.state == ws[k].locals[id].run.value.state
  }

  predicate Waits(l: Local, seen: Container) {
    l.run.Some? && l.run.value.phase == Attempt(Inspected(seen))
  }

  lemma LocalWaits(l: Local, act: LocalAction, stream: Stream, seen: Container)
    requires LocalEnabled(l, act, stream) && Waits(LocalAfter(l, act, stream), seen)
    ensures l.run.Some?
    ensures
      var r, s := l.run.value, LocalAfter(l, act, stream).run.value;
      && r.attempts == s.attempts && r.state == s.state
      && (if act == Steps(StatusReads) then l.container == seen else Waits(l, seen))
  {
  }

  lemma WaitsBefore(ws: seq<World>, acts: seq<Action>, i: nat, id: BackendId, seen: Container)
    requires Behaviour(ws, acts) && i < |acts| && id in ws[i + 1].locals && Waits(ws[i + 1].locals[id], seen)
    ensures id in ws[i].locals && ws[i].locals[id].run.Some?
    ensures
      var r, s := ws[i].locals[id].run.value, ws[i + 1].locals[id].run.value;
      && r.attempts == s.attempts && r.state == s.state
      && (if acts[i] == Acts(id, Steps(StatusReads)) then ws[i].locals[id].container == seen else Waits(ws[i].locals[id], seen))
  {
    ComesFrom(ws, acts, i, id);
    if !(acts[i].Acts? && acts[i].id == id) {
      OthersMove(ws, acts, i, id);
    } else {
      ItselfMoves(ws, acts, i, id);
      LocalWaits(ws[i].locals[id], acts[i].act, ws[i].stream, seen);
    }
  }

  /** The answer that an attempt waits for is what the engine saw when it looked. */
  lemma {:induction false} AnswerIsTrue(ws: seq<World>, acts: seq<Action>, i: nat, id: BackendId, seen: Container) returns (k: nat)
    requires Behaviour(ws, acts) && i < |ws| && id in ws[i].locals && Waits(ws[i].locals[id], seen)
    ensures AskedAt(ws, acts, k, i, id) && ws[k].locals[id].container == seen
  {
    assert i > 0;
    WaitsBefore(ws, acts, i - 1, id, seen);
    if acts[i - 1] == Acts(id, Steps(StatusReads)) {
      k := i - 1;
    } else {
      k := AnswerIsTrue(ws, acts, i - 1, id, seen);
    }
  }

  lemma HappenedLonger(acts: seq<Action>, j: nat, i: nat, id: BackendId, act: LocalAction)
    requires Happened(acts, j, id, act) && j <= i
    ensures Happened(acts, i, id, act)
  {
    var k :| 0 <= k < j && k < |acts| && acts[k] == Acts(id, act);
    assert 0 <= k < i && acts[k] == Acts(id, act);
  }

  lemma DeadHasDied(ws: seq<World>, acts: seq<Action>, k: nat, i: nat, id: BackendId, code: Option<int>)
    requires Behaviour(ws, acts) && k <= i < |ws| && id in ws[k].locals && ws[k].locals[id].container == Dead(code)
    ensures Happened(acts, i, id, EngineDies(code))
  {
    InvariantHolds(ws, acts, k);
    OriginIsHistory(ws, acts, k, id);
    assert Grounded(ws[k].locals[id]);
    HappenedLonger(acts, k, i, id, EngineDies(code));
  }

  // ---- why a state was written ------------------------------------------------------------

  /** The action that made the run choose `state`. */
  ghost predicate ChosenAt(ws: seq<World>, acts: seq<Action>, j: nat, i: nat, id: BackendId, state: BackendState) {
    && j < i < |ws| && |ws| == |acts| + 1 && id in ws[j].locals
    && acts[j].Acts? && acts[j].id == id && LeadsTo(ws[j].locals[id], acts[j].act, state)
  }

  lemma LocalChoosing(l: Local, act: LocalAction, stream: Stream, state: BackendState)
    requires LocalEnabled(l, act, stream) && Choosing(LocalAfter(l, act, stream), state)
    requires l.run.Some? && l.run.value.phase.Writing?
    ensures Choosing(l, state)
  {
  }

  lemma ChoosingBefore(ws: seq<World>, acts: seq<Action>, i: nat, id: BackendId, state: BackendState)
    requires Behaviour(ws, acts) && i < |acts| && id in ws[i + 1].locals && Choosing(ws[i + 1].locals[id], state)
    ensures id in ws[i].locals
    ensures ws[i].locals[id].run.Some? && ws[i].locals[id].run.value.phase.Writing? ==> Choosing(ws[i].locals[id], state)
  {
    ComesFrom(ws, acts, i, id);
    if !(acts[i].Acts? && acts[i].id == id) {
      OthersMove(ws, acts, i, id);
    } else if ws[i].locals[id].run.Some? && ws[i].locals[id].run.value.phase.Writing? {
      ItselfMoves(ws, acts, i, id);
      LocalChoosing(ws[i].locals[id], acts[i].act, ws[i].stream, state);
    }
  }

  lemma {:induction false} ChoosingWasChosen(ws: seq<World>, acts: seq<Action>, i: nat, id: BackendId, state: BackendState)
    returns (j: nat)
    requires Behaviour(ws, acts) && i < |ws| && id in ws[i].locals && Choosing(ws[i].locals[id], state)
    ensures ChosenAt(ws, acts, j, i, id, state)
  {
    assert i > 0;
    ChoosingBefore(ws, acts, i - 1, id, state);
    if ws[i - 1].locals[id].run.Some? && ws[i - 1].locals[id].run.value.phase.Writing? {
      j := ChoosingWasChosen(ws, acts, i - 1, id, state);
    } else {
      j := i - 1;
      ChoosesExactly(ws, acts, j, id, state);
    }
  }

  lemma LocalWrites(l: Local, act: LocalAction, stream: Stream)
    requires LocalEnabled(l, act, stream)
    ensures LocalAfter(l, act, stream).written ==
            if act == Persists(true) && l.row.Some? then l.written + [l.run.value.state] else l.written
  {
  }

  /** What one action adds to the states written for a backend. */
  lemma WriteStep(ws: seq<World>, acts: seq<Action>, i: nat, id: BackendId)
    requires Behaviour(ws, acts) && i < |acts| && id in ws[i + 1].locals
    ensures id !in ws[i].locals ==> acts[i].Spawns? && acts[i].id == id
    ensures acts[i] == Acts(id, Persists(true)) ==>
              id in ws[i].locals && ws[i].locals[id].run.Some? && ws[i].locals[id].run.value.phase.Writing?
    ensures ws[i + 1].locals[id].written ==
            if id !in ws[i].locals then (if acts[i] == Spawns(id, true) then [Loading] else [])
            else if acts[i] == Acts(id, Persists(true)) && ws[i].locals[id].row.Some? then
              ws[i].locals[id].written + [ws[i].locals[id].run.value.state]
            else ws[i].locals[id].written
  {
    if acts[i].Acts? && acts[i].id == id {
      LocalWrites(ws[i].locals[id], acts[i].act, ws[i].stream);
    }
  }

  lemma {:induction false} WrittenWasChosen(ws: seq<World>, acts: seq<Action>, i: nat, id: BackendId, m: nat) returns (j: nat)
    requires Behaviour(ws, acts) && i < |ws| && id in ws[i].locals && 0 < m < |ws[i].locals[id].written|
    ensures ChosenAt(ws, acts, j, i, id, ws[i].locals[id].written[m])
  {
    assert i > 0;
    WriteStep(ws, acts, i - 1, id);
    if m < |ws[i - 1].locals[id].written| {
      j := WrittenWasChosen(ws, acts, i - 1, id, m);
    } else {
      j := ChoosingWasChosen(ws, acts, i - 1, id, ws[i].locals[id].written[m]);
    }
  }

  /** Before point `i` the engine has been asked about the container of `id` and has seen `seen`. */
  ghost predicate Seen(ws: seq<World>, acts: seq<Action>, i: nat, id: BackendId, seen: Container) {
    exists k :: 0 <= k < i && k < |acts| && k < |ws| && acts[k] == Acts(id, Steps(StatusReads)) && id in ws[k].locals
                && ws[k].locals[id].container == seen
  }

  /** What must have happened before `state` is stored. */
  ghost predicate Caused(ws: seq<World>, acts: seq<Action>, i: nat, id: BackendId, state: BackendState) {
    match state
    case Loading => true
    case Starting => Happened(acts, i, id, Steps(LoadReturns(true)))
    case ErrorLoading => Happened(acts, i, id, Steps(LoadReturns(false)))
    case ErrorStarting => exists seen: Container :: !seen.Live? && Seen(ws, acts, i, id, seen)
    case Ready => Happened(acts, i, id, Steps(RouteReturns(true)))
    case Failed =>
      exists code :: code != 0 && Seen(ws, acts, i, id, Dead(Some(code))) && Happened(acts, i, id, EngineDies(Some(code)))
    case Exited => Seen(ws, acts, i, id, Dead(Some(0))) && Happened(acts, i, id, EngineDies(Some(0)))
    case Swept =>
      || (Seen(ws, acts, i, id, Dead(None)) && Happened(acts, i, id, EngineDies(None)))
      || Happened(acts, i, id, Steps(IdleReturns(true)))
    case Terminated => Happened(acts, i, id, KillArrives)
    case TimedOutBeforeReady => false
  }

  lemma AnswerWasSeen(ws: seq<World>, acts: seq<Action>, j: nat, i: nat, id: BackendId, seen: Container)
    requires Behaviour(ws, acts) && j <= i < |ws| && id in ws[j].locals && Waits(ws[j].locals[id], seen)
    ensures Seen(ws, acts, i, id, seen)
    ensures seen.Dead? ==> Happened(acts, i, id, EngineDies(seen.code))
  {
    var k := AnswerIsTrue(ws, acts, j, id, seen);
    assert k < i;
    if seen.Dead? {
      DeadHasDied(ws, acts, k, i, id, seen.code);
    }
  }

  lemma SignalWasKill(ws: seq<World>, acts: seq<Action>, j: nat, i: nat, id: BackendId)
    requires Behaviour(ws, acts) && j <= i < |ws| && id in ws[j].locals
    requires ws[j].locals[id].run.Some? && ws[j].locals[id].run.value.channel == Full(Terminate)
    ensures Happened(acts, i, id, KillArrives)
  {
    InvariantHolds(ws, acts, j);
    OriginIsHistory(ws, acts, j, id);
    assert Grounded(ws[j].locals[id]);
    HappenedLonger(acts, j, i, id, KillArrives);
  }

  lemma ChosenIsCaused(ws: seq<World>, acts: seq<Action>, j: nat, i: nat, id: BackendId, state: BackendState)
    requires Behaviour(ws, acts) && ChosenAt(ws, acts, j, i, id, state)
    ensures Caused(ws, acts, i, id, state)
  {
    var l, act := ws[j].locals[id], acts[j].act;
    assert Happened(acts, i, id, act);
    if act == Steps(StatusReturns(true)) && state in {ErrorStarting, Failed, Exited, Swept} {
      var seen := l.run.value.phase.point.seen;
      assert Waits(l, seen);
      AnswerWasSeen(ws, acts, j, i, id, seen);
    } else if act == TakesSignal {
      SignalWasKill(ws, acts, j, i, id);
    }
  }

  /** Every state that was ever stored had its cause: ErrorLoading and Starting a load that failed or
      succeeded; ErrorStarting a look at the container that did not find it up; Ready an inserted
      route; Failed, Exited and Swept a look at a container that had died with a nonzero code, with
      zero or without a code, or, for Swept, an idle loop that ran out; Terminated a kill request. */
  lemma StatesAreCaused(ws: seq<World>, acts: seq<Action>, i: nat, id: BackendId)
    requires Behaviour(ws, acts) && i < |ws| && id in ws[i].locals
    ensures forall state :: state in ws[i].locals[id].written ==> Caused(ws, acts, i, id, state)
  {
    var written := ws[i].locals[id].written;
    forall state | state in written ensures Caused(ws, acts, i, id, state) {
      var m :| 0 <= m < |written| && written[m] == state;
      if m > 0 {
        var j := WrittenWasChosen(ws, acts, i, id, m);
        ChosenIsCaused(ws, acts, j, i, id, state);
      } else {
        RowIsLatest(ws, acts, i, id);
      }
    }
  }

  // ---- what follows a death ---------------------------------------------------------------

  /** Between `i` and `j` the agent does not crash and the run of `id` does not write. */
  predicate NoWrite(acts: seq<Action>, i: nat, j: nat, id: BackendId) {
    forall t :: i <= t < j && t < |acts| ==> acts[t] != Crashes && !(acts[t].Acts? && acts[t].id == id && acts[t].act.Persists?)
  }

  lemma LocalKeepsChoice(l: Local, act: LocalAction, stream: Stream, state: BackendState)
    requires LocalEnabled(l, act, stream) && Choosing(l, state) && !act.Persists?
    ensures Choosing(LocalAfter(l, act, stream), state) && LocalAfter(l, act, stream).written == l.written
  {
  }

  lemma KeepsChoice(ws: seq<World>, acts: seq<Action>, i: nat, id: BackendId, state: BackendState)
    requires Behaviour(ws, acts) && i < |acts| && id in ws[i].locals && Choosing(ws[i].locals[id], state)
    requires NoWrite(acts, i, i + 1, id)
    ensures id in ws[i + 1].locals && Choosing(ws[i + 1].locals[id], state)
    ensures ws[i + 1].locals[id].written == ws[i].locals[id].written
  {
    assert acts[i] != Crashes;
    if !(acts[i].Acts? && acts[i].id == id) {
      OthersMove(ws, acts, i, id);
    } else {
      ItselfMoves(ws, acts, i, id);
      LocalKeepsChoice(ws[i].locals[id], acts[i].act, ws[i].stream, state);
    }
  }

  /** What a run has chosen is what it writes next. */
  lemma {:induction false} ChoiceIsWritten(ws: seq<World>, acts: seq<Action>, i: nat, j: nat, id: BackendId, state: BackendState)
    requires Behaviour(ws, acts) && i <= j < |acts| && id in ws[i].locals && Choosing(ws[i].locals[id], state)
    requires NoWrite(acts, i, j, id) && acts[j] == Acts(id, Persists(true)) && ws[i].locals[id].row.Some?
    ensures id in ws[j + 1].locals && ws[j + 1].locals[id].written == ws[i].locals[id].written + [state]
    decreases j - i
  {
    if i < j {
      KeepsChoice(ws, acts, i, id, state);
      HistoryGrows(ws, acts, i, i + 1, id);
      RowIsLatest(ws, acts, i, id);
      RowIsLatest(ws, acts, i + 1, id);
      ChoiceIsWritten(ws, acts, i + 1, j, id, state);
    } else {
      WriteStep(ws, acts, j, id);
    }
  }

  lemma AnswerIs(ws: seq<World>, acts: seq<Action>, i: nat, id: BackendId) returns (seen: Container)
    requires Behaviour(ws, acts) && i < |acts| && acts[i] == Acts(id, Steps(StatusReturns(true)))
    ensures id in ws[i].locals && Waits(ws[i].locals[id], seen)
  {
    ItselfMoves(ws, acts, i, id);
    seen := ws[i].locals[id].run.value.phase.point.seen;
  }

  lemma DeathIsChosen(ws: seq<World>, acts: seq<Action>, i: nat, id: BackendId, code: Option<int>, state: BackendState)
    requires Behaviour(ws, acts) && i < |acts| && acts[i] == Acts(id, Steps(StatusReturns(true))) && id in ws[i].locals
    requires Waits(ws[i].locals[id], Dead(code)) && ws[i].locals[id].run.value.state == Ready && ws[i].locals[id].row.Some?
    requires state == if code == None then Swept else if code == Some(0) then Exited else Failed
    ensures id in ws[i + 1].locals && Choosing(ws[i + 1].locals[id], state)
    ensures ws[i + 1].locals[id].row.Some? && ws[i + 1].locals[id].written == ws[i].locals[id].written
  {
    assert Answered(ws[i].locals[id], acts[i].act, Ready, Dead(code));
    assert code.Some? ==> Answered(ws[i].locals[id], acts[i].act, Ready, Dead(Some(code.value)));
    ChoosesExactly(ws, acts, i, id, state);
    WriteStep(ws, acts, i, id);
    RowIsLatest(ws, acts, i, id);
    RowIsLatest(ws, acts, i + 1, id);
  }

  /** A death is stored as what it was. If the engine's answer to a Ready attempt returns at `i`, the
      engine had looked at the container at some `k` of the same attempt, and found it dead, then the
      next state written for the backend is Swept, Exited or Failed as the container died without a
      code, with code zero or with another one. */
  lemma DeathIsWritten(ws: seq<World>, acts: seq<Action>, i: nat, j: nat, id: BackendId) returns (k: nat)
    requires Behaviour(ws, acts) && i < j < |acts| && acts[i] == Acts(id, Steps(StatusReturns(true)))
    requires ws[i].locals[id].run.value.state == Ready && ws[i].locals[id].row.Some?
    requires NoWrite(acts, i + 1, j, id) && acts[j] == Acts(id, Persists(true))
    ensures AskedAt(ws, acts, k, i, id)
    ensures id in ws[j + 1].locals
    ensures
      var container := ws[k].locals[id].container;
      container.Dead? ==>
        ws[j + 1].locals[id].written == ws[i].locals[id].written +
          [if container.code == None then Swept else if container.code == Some(0) then Exited else Failed]
  {
    var seen := AnswerIs(ws, acts, i, id);
    k := AnswerIsTrue(ws, acts, i, id, seen);
    if seen.Dead? {
      var state := if seen.code == None then Swept else if seen.code == Some(0) then Exited else Failed;
      DeathIsChosen(ws, acts, i, id, seen.code, state);
      ChoiceIsWritten(ws, acts, i + 1, j, id, state);
    } else {
      HistoryGrows(ws, acts, i, j + 1, id);
    }
  }

  // ---- the traces, read off the actions ---------------------------------------------------

  /** The states that the actions before `i` stored for `id`. */
  function StoredBy(ws: seq<World>, acts: seq<Action>, i: nat, id: BackendId): seq<BackendState>
    requires i < |ws| && |ws| == |acts| + 1
  {
    if i == 0 then []
    else
      var before, a := StoredBy(ws, acts, i - 1, id), acts[i - 1];
      if a == Spawns(id, true) then before + [Loading]
      else if a == Acts(id, Persists(true)) && id in ws[i - 1].locals && ws[i - 1].locals[id].row.Some?
              && ws[i - 1].locals[id].run.Some?
      then before + [ws[i - 1].locals[id].run.value.state]
      else before
  }

  /** The states that the actions before `i` published for `id`. */
  function PublishedBy(ws: seq<World>, acts: seq<Action>, i: nat, id: BackendId): seq<BackendState>
    requires i < |ws| && |ws| == |acts| + 1
  {
    if i == 0 then []
    else
      var before, a := PublishedBy(ws, acts, i - 1, id), acts[i - 1];
      if a == Acts(id, Announces(true)) then before + [Loading]
      else if a == Acts(id, Publishes(true)) && id in ws[i - 1].locals && ws[i - 1].locals[id].run.Some?
      then before + [ws[i - 1].locals[id].run.value.state]
      else before
  }

  lemma LocalPublishes(l: Local, act: LocalAction, stream: Stream)
    requires LocalEnabled(l, act, stream)
    ensures LocalAfter(l, act, stream).published ==
            if act == Announces(true) then l.published + [Loading]
            else if act == Publishes(true) then l.published + [l.run.value.state]
            else l.published
  {
  }

  lemma PublishStep(ws: seq<World>, acts: seq<Action>, i: nat, id: BackendId)
    requires Behaviour(ws, acts) && i < |acts| && id in ws[i + 1].locals
    ensures acts[i] == Acts(id, Announces(true)) || acts[i] == Acts(id, Publishes(true)) ==>
              id in ws[i].locals && ws[i].locals[id].run.Some?
    ensures ws[i + 1].locals[id].published ==
            if id !in ws[i].locals then []
            else if acts[i] == Acts(id, Announces(true)) then ws[i].locals[id].published + [Loading]
            else if acts[i] == Acts(id, Publishes(true)) then ws[i].locals[id].published + [ws[i].locals[id].run.value.state]
            else ws[i].locals[id].published
  {
    if acts[i].Acts? && acts[i].id == id {
      LocalPublishes(ws[i].locals[id], acts[i].act, ws[i].stream);
    }
  }

  lemma {:induction false} NothingBefore(ws: seq<World>, acts: seq<Action>, i: nat, id: BackendId)
    requires Behaviour(ws, acts) && i < |ws| && id !in ws[i].locals
    ensures StoredBy(ws, acts, i, id) == [] && PublishedBy(ws, acts, i, id) == []
  {
    if i > 0 {
      assert Enabled(ws[i - 1], acts[i - 1]);
      assert id !in ws[i - 1].locals;
      NothingBefore(ws, acts, i - 1, id);
    }
  }

  /** The traces are exactly what the actions say: a state is stored by every insertion and by every
      write that succeeds, and published by every announcement and publication that succeeds, and
      nothing else adds to them, at every point of every behaviour. */
  lemma {:induction false} TracesExactly(ws: seq<World>, acts: seq<Action>, i: nat, id: BackendId)
    requires Behaviour(ws, acts) && i < |ws| && id in ws[i].locals
    ensures ws[i].locals[id].written == StoredBy(ws, acts, i, id)
    ensures ws[i].locals[id].published == PublishedBy(ws, acts, i, id)
  {
    assert i > 0;
    WriteStep(ws, acts, i - 1, id);
    PublishStep(ws, acts, i - 1, id);
    if id in ws[i - 1].locals {
      TracesExactly(ws, acts, i - 1, id);
    } else {
      NothingBefore(ws, acts, i - 1, id);
    }
  }

  // ---- when nothing fails -----------------------------------------------------------------

  /** No write and no publication for `id` fails, and the agent does not crash. */
  predicate Smooth(acts: seq<Action>, i: nat, id: BackendId) {
    forall j :: 0 <= j < i && j < |acts| ==>
      acts[j] !in {Crashes, Spawns(id, false), Acts(id, Announces(false)), Acts(id, Persists(false)), Acts(id, Publishes(false))}
  }

  /** What is published is what is stored, up to the state being announced or published. */
  predicate InStep(l: Local) {
    if l.run.Some? && (l.run.value.phase.Announcing? || l.run.value.phase.Publishing?) then
      l.written == l.published + [l.run.value.state] && l.row.Some?
    else
      l.written == l.published && l.row.Some?
  }

  lemma LocalInStep(l: Local, act: LocalAction, stream: Stream)
    requires LocalEnabled(l, act, stream) && InStep(l) && Owned(l)
    requires act !in {Announces(false), Persists(false), Publishes(false)}
    ensures InStep(LocalAfter(l, act, stream))
  {
  }

  lemma StaysInStep(ws: seq<World>, acts: seq<Action>, i: nat, id: BackendId)
    requires Behaviour(ws, acts) && i < |acts| && id in ws[i + 1].locals && Smooth(acts, i + 1, id)
    requires id in ws[i].locals ==> InStep(ws[i].locals[id]) && ws[i].mode == Serving
    ensures InStep(ws[i + 1].locals[id]) && ws[i + 1].mode == Serving
  {
    InvariantHolds(ws, acts, i);
    assert Enabled(ws[i], acts[i]) && acts[i] != Crashes && acts[i] != Spawns(id, false);
    if acts[i].Acts? && acts[i].id == id {
      LocalInStep(ws[i].locals[id], acts[i].act, ws[i].stream);
    }
  }

  /** As long as nothing fails, what has been published is what has been stored, at every loop head and
      whenever a run has ended. */
  lemma {:induction false} PublishedIsStored(ws: seq<World>, acts: seq<Action>, i: nat, id: BackendId)
    requires Behaviour(ws, acts) && i < |ws| && id in ws[i].locals && Smooth(acts, i, id)
    ensures InStep(ws[i].locals[id]) && ws[i].mode == Serving
    ensures ws[i].locals[id].run.None? || ws[i].locals[id].run.value.phase.Attempt? ==>
              ws[i].locals[id].published == ws[i].locals[id].written
  {
    assert i > 0;
    if id in ws[i - 1].locals {
      PublishedIsStored(ws, acts, i - 1, id);
    }
    StaysInStep(ws, acts, i - 1, id);
  }

  // ---- kill requests are conserved --------------------------------------------------------

  /** The current run of `id` begins, or is gone, with this action. */
  predicate Renews(a: Action, id: BackendId) {
    a == Crashes || a == Resumes || (a.Spawns? && a.id == id)
  }

  /** The kill requests that have arrived for `id` since its run began. */
  function KillsBy(acts: seq<Action>, i: nat, id: BackendId): nat
    requires i <= |acts|
  {
    if i == 0 || Renews(acts[i - 1], id) then 0
    else KillsBy(acts, i - 1, id) + if acts[i - 1] == Acts(id, KillArrives) then 1 else 0
  }

  /** The termination signals that the run of `id` has taken since it began. */
  function TakenBy(ws: seq<World>, acts: seq<Action>, i: nat, id: BackendId): nat
    requires i < |ws| && |ws| == |acts| + 1
  {
    if i == 0 || Renews(acts[i - 1], id) then 0
    else
      TakenBy(ws, acts, i - 1, id) +
      if && acts[i - 1] == Acts(id, TakesSignal) && id in ws[i - 1].locals && ws[i - 1].locals[id].run.Some?
         && ws[i - 1].locals[id].run.value.channel == Full(Terminate)
      then 1 else 0
  }

  /** The kill requests in the channel, about to enter it, or waiting for it. */
  function PendingKills(r: Run): nat {
    r.parked + if r.channel == Full(Terminate) || r.channel == Promised then 1 else 0
  }

  lemma LocalKills(l: Local, act: LocalAction, stream: Stream)
    requires LocalEnabled(l, act, stream) && l.run.Some? && LocalAfter(l, act, stream).run.Some? && Owned(l)
    ensures
      var r, s := l.run.value, LocalAfter(l, act, stream).run.value;
      PendingKills(s) + (if act == TakesSignal && r.channel == Full(Terminate) then 1 else 0) ==
        PendingKills(r) + if act == KillArrives then 1 else 0
  {
  }

  lemma RenewedIsQuiet(w: World, a: Action, id: BackendId)
    requires Enabled(w, a) && Invariant(w) && Renews(a, id) && id in After(w, a).locals && After(w, a).locals[id].run.Some?
    ensures PendingKills(After(w, a).locals[id].run.value) == 0
  {
  }

  lemma MovedKills(l: Local, m: Local)
    requires Moved(l, m) && m.run.Some? && l.run.Some?
    ensures PendingKills(m.run.value) == PendingKills(l.run.value)
  {
  }

  lemma KillStep(ws: seq<World>, acts: seq<Action>, i: nat, id: BackendId)
    requires Behaviour(ws, acts) && i < |acts| && id in ws[i + 1].locals && ws[i + 1].locals[id].run.Some?
    ensures Renews(acts[i], id) ==> PendingKills(ws[i + 1].locals[id].run.value) == 0
    ensures !Renews(acts[i], id) ==>
      && id in ws[i].locals && ws[i].locals[id].run.Some?
      && (var r, s := ws[i].locals[id].run.value, ws[i + 1].locals[id].run.value;
          PendingKills(s) + (if acts[i] == Acts(id, TakesSignal) && r.channel == Full(Terminate) then 1 else 0) ==
            PendingKills(r) + if acts[i] == Acts(id, KillArrives) then 1 else 0)
  {
    InvariantHolds(ws, acts, i);
    if Renews(acts[i], id) {
      RenewedIsQuiet(ws[i], acts[i], id);
    } else if acts[i].Acts? && acts[i].id == id {
      ItselfMoves(ws, acts, i, id);
      NothingAppears(ws[i].locals[id], acts[i].act, ws[i].stream);
      assert Owned(ws[i].locals[id]);
      LocalKills(ws[i].locals[id], acts[i].act, ws[i].stream);
    } else {
      assert id in ws[i].locals;
      OthersMove(ws, acts, i, id);
      MovedKills(ws[i].locals[id], ws[i + 1].locals[id]);
    }
  }

  /** No kill request is lost or doubled while a run lives: those that have arrived for it have been
      taken, or are in the channel, about to enter it, or waiting for it, whatever interrupts were
      dropped or delivered in between. */
  lemma {:induction false} KillsConserved(ws: seq<World>, acts: seq<Action>, i: nat, id: BackendId)
    requires Behaviour(ws, acts) && i < |ws| && id in ws[i].locals && ws[i].locals[id].run.Some?
    ensures KillsBy(acts, i, id) == TakenBy(ws, acts, i, id) + PendingKills(ws[i].locals[id].run.value)
  {
    assert i > 0;
    KillStep(ws, acts, i - 1, id);
    if !Renews(acts[i - 1], id) {
      KillsConserved(ws, acts, i - 1, id);
    }
  }
}
