/** `Executor::run_backend` on its own: the nested loops that drive one backend, with the outcome of
    every race between a step and the signal channel given by a script. */
module RunLoop {
  import opened Lifecycle

  /** What the select in the inner loop sees of the signal channel before the step completes. */
  datatype Race = StepWins | Receives(signal: Signal) | SenderGone

  /** One iteration of the inner loop, and whether the writes that may follow it succeed. */
  datatype Round = Round(env: StepEnv, race: Race, stored: bool, sent: bool)

  /** `Pending`: the script ended before the run did. */
  datatype Ending = Pending | Stopped | Failure | Abandoned

  /** What an iteration of the inner loop amounts to; in `Swept` signals are not looked at. */
  datatype Reaction = Again | Chooses(next: BackendState) | Ends(ending: Ending) | EndsAs(last: BackendState)

  function React(state: BackendState, round: Round): Reaction {
    if state != Swept && round.race == Receives(Interrupt) then Again
    else if state != Swept && round.race == Receives(Terminate) then Chooses(Terminated)
    else if state != Swept && round.race == SenderGone then Ends(Abandoned)
    else
      match Judge(state, Step(state, round.env))
      case Continue(s) => Chooses(s)
      case Leave => Ends(if Step(state, round.env) == Done then Stopped else Failure)
      case LeaveAs(s) => EndsAs(s)
  }

  /** A state handed to `update_backend_state`, and whether it reached the database and NATS. */
  datatype Choice = Choice(state: BackendState, stored: bool, sent: bool)

  datatype Outcome = Outcome(
    state: BackendState,
    ending: Ending,
    attempts: nat,          // iterations of the inner loop
    received: nat,          // signals received
    choices: seq<Choice>)

  function Continued(o: Outcome, round: Round): Outcome {
    var signals := if o.state != Swept && round.race.Receives? then 1 else 0;
    var tried := o.(attempts := o.attempts + 1, received := o.received + signals);
    match React(o.state, round)
    case Again => tried
    case Chooses(s) => tried.(state := s, choices := o.choices + [Choice(s, round.stored, round.sent)])
    case Ends(ending) => tried.(ending := ending)
    case EndsAs(s) => tried.(state := s, ending := Failure, choices := o.choices + [Choice(s, round.stored, round.sent)])
  }

  /** What a run of the loop from `state` does. */
  function Drive(state: BackendState, script: seq<Round>): Outcome {
    if script == [] then Outcome(state, Pending, 0, 0, [])
    else
      var o := Drive(state, script[..|script| - 1]);
      if o.ending == Pending then Continued(o, script[|script| - 1]) else o
  }

  /** One more round of a run that has not ended. */
  lemma DrivePrefix(state: BackendState, script: seq<Round>, n: nat)
    requires n < |script| && Drive(state, script[..n]).ending == Pending
    ensures Drive(state, script[..n + 1]) == Continued(Drive(state, script[..n]), script[n])
  {
    assert script[..n + 1][..n] == script[..n];
  }

  lemma DriveSnoc(state: BackendState, script: seq<Round>, round: Round)
    requires Drive(state, script).ending == Pending
    ensures Drive(state, script + [round]) == Continued(Drive(state, script), round)
  {
    assert (script + [round])[..|script|] == script;
  }

  /** The last round of the script chose a state. */
  predicate ChoosesLast(state: BackendState, script: seq<Round>) {
    script != [] && |Drive(state, script[..|script| - 1]).choices| < |Drive(state, script).choices|
  }

  /** The outcome with other results of the writes for the last choice. */
  function Relabelled(o: Outcome, stored: bool, sent: bool): Outcome
    requires o.choices != []
  {
    var m := |o.choices| - 1;
    o.(choices := o.choices[..m] + [Choice(o.choices[m].state, stored, sent)])
  }

  lemma ContinuedRelabels(o: Outcome, round: Round, stored: bool, sent: bool)
    requires |o.choices| < |Continued(o, round).choices|
    ensures Continued(o, round.(stored := stored, sent := sent)) == Relabelled(Continued(o, round), stored, sent)
  {
  }

  /** Only the choice of the last round depends on whether its writes succeed. */
  lemma LastRound(state: BackendState, script: seq<Round>, stored: bool, sent: bool)
    requires ChoosesLast(state, script)
    ensures
      var changed := script[..|script| - 1] + [script[|script| - 1].(stored := stored, sent := sent)];
      ChoosesLast(state, changed) && Drive(state, changed) == Relabelled(Drive(state, script), stored, sent)
  {
    var before, round := script[..|script| - 1], script[|script| - 1];
    ContinuedRelabels(Drive(state, before), round, stored, sent);
    DriveSnoc(state, before, round.(stored := stored, sent := sent));
    assert (before + [round.(stored := stored, sent := sent)])[..|before|] == before;
  }

  /** Every reaction that changes the state moves the lifecycle forward, and a run stops only in a
      terminal state whose container was stopped. */
  lemma ReactAdvances(state: BackendState, round: Round)
    ensures
      match React(state, round)
      case Again => round.race == Receives(Interrupt) && state != Swept
      case Chooses(s) =>
        Follows(state, s) && state.Stage() + (if round.race.Receives? then 0 else 1) <= s.Stage()
      case Ends(ending) => ending != Pending && (ending == Stopped ==> state.Terminal() && round.env.stops)
      case EndsAs(s) => Follows(state, s) && state.Stage() < s.Stage()
  {
    StepAdvances(state, round.env);
  }

  /** What each signal does: an interrupt repeats the attempt, a termination request chooses Terminated,
      a lost sender abandons the run, and in Swept none of them is looked at. */
  lemma SignalsExactly(state: BackendState, round: Round)
    ensures React(state, round) == Again <==> state != Swept && round.race == Receives(Interrupt)
    ensures React(state, round) == Chooses(Terminated) <==> state != Swept && round.race == Receives(Terminate)
    ensures React(state, round) == Ends(Abandoned) <==> state != Swept && round.race == SenderGone
    ensures state == Swept ==> React(state, round) == Ends(if round.env.stops then Stopped else Failure)
  {
  }

  /** Termination bound: a run that receives n signals makes at most n + 4 step attempts, and fewer
      if it is resumed in a later state. */
  lemma {:induction false} DriveBound(state: BackendState, script: seq<Round>)
    ensures
      var o := Drive(state, script);
      && o.attempts + state.Stage() <= o.received + o.state.Stage() + (if o.ending == Pending then 0 else 1)
      && o.attempts <= o.received + 5 - state.Stage() <= o.received + 4
  {
    if script != [] {
      DriveBound(state, script[..|script| - 1]);
      ReactAdvances(Drive(state, script[..|script| - 1]).state, script[|script| - 1]);
    }
  }

  /** The choices follow one another in the lifecycle from `state`, and the last one is the state. */
  predicate InOrder(state: BackendState, o: Outcome) {
    && (o.choices == [] ==> o.state == state)
    && (o.choices != [] ==> Follows(state, o.choices[0].state) && o.state == o.choices[|o.choices| - 1].state)
    && (forall i :: 0 <= i < |o.choices| - 1 ==> Follows(o.choices[i].state, o.choices[i + 1].state))
  }

  lemma ContinuedInOrder(state: BackendState, o: Outcome, round: Round)
    requires InOrder(state, o)
    ensures InOrder(state, Continued(o, round))
  {
    ReactAdvances(o.state, round);
  }

  /** The states a run chooses follow one another in the lifecycle, from the state it started in,
      and the last one is the state it ends in. */
  lemma {:induction false} DriveOrdered(state: BackendState, script: seq<Round>)
    ensures InOrder(state, Drive(state, script))
  {
    if script != [] {
      DriveOrdered(state, script[..|script| - 1]);
      ContinuedInOrder(state, Drive(state, script[..|script| - 1]), script[|script| - 1]);
    }
  }

  lemma {:induction false} PendingUsesAll(state: BackendState, script: seq<Round>)
    requires Drive(state, script).ending == Pending
    ensures Drive(state, script).attempts == |script|
  {
    if script != [] {
      PendingUsesAll(state, script[..|script| - 1]);
    }
  }

  /** A run that ends successfully ends in a terminal state, and its last attempt stopped the
      container. */
  lemma {:induction false} StoppedIsTerminal(state: BackendState, script: seq<Round>)
    requires Drive(state, script).ending == Stopped
    ensures Drive(state, script).state.Terminal()
    ensures
      var n := Drive(state, script).attempts;
      1 <= n <= |script| && script[n - 1].env.stops
  {
    var before := script[..|script| - 1];
    if Drive(state, before).ending == Pending {
      PendingUsesAll(state, before);
      ReactAdvances(Drive(state, before).state, script[|script| - 1]);
    } else {
      StoppedIsTerminal(state, before);
    }
  }

  /** Rounds after the end of a run do not matter. */
  lemma {:induction false} EndedStays(state: BackendState, script: seq<Round>, n: nat)
    requires n <= |script| && Drive(state, script[..n]).ending != Pending
    ensures Drive(state, script) == Drive(state, script[..n])
  {
    if n == |script| {
      assert script[..n] == script;
    } else {
      var before := script[..|script| - 1];
      assert before[..n] == script[..n];
      EndedStays(state, before, n);
    }
  }

  const SMOOTH := Round(StepEnv(true, Some(Up("")), true, true, true, true), StepWins, true, true)

  function Interrupts(n: nat): seq<Round> {
    if n == 0 then [] else Interrupts(n - 1) + [SMOOTH.(race := Receives(Interrupt))]
  }

  lemma {:induction false} InterruptsRepeat(n: nat)
    ensures Drive(Loading, Interrupts(n)) == Outcome(Loading, Pending, n, n, [])
  {
    if n > 0 {
      InterruptsRepeat(n - 1);
      assert Interrupts(n)[..|Interrupts(n)| - 1] == Interrupts(n - 1);
    }
  }

  /** The bound is attained, whatever the number of signals. */
  lemma BoundIsTight(n: nat)
    ensures
      var o := Drive(Loading, Interrupts(n) + [SMOOTH] + [SMOOTH] + [SMOOTH] + [SMOOTH]);
      o.ending == Stopped && o.received == n && o.attempts == n + 4
  {
    InterruptsRepeat(n);
    DriveSnoc(Loading, Interrupts(n), SMOOTH);
    DriveSnoc(Loading, Interrupts(n) + [SMOOTH], SMOOTH);
    DriveSnoc(Loading, Interrupts(n) + [SMOOTH] + [SMOOTH], SMOOTH);
    DriveSnoc(Loading, Interrupts(n) + [SMOOTH] + [SMOOTH] + [SMOOTH], SMOOTH);
  }

  // ---- effects on the shared maps and tables ----------------------------------------------

  /** What the runs of all backends share: the backend table, the messages published so far, and
      the keys of `backend_to_monitor`. */
  datatype Shared = Shared(
    table: map<BackendId, BackendState>,
    published: seq<(BackendId, BackendState)>,
    monitors: set<BackendId>)

  function Record(s: Shared, id: BackendId, choice: Choice): Shared {
    Shared(if choice.stored && id in s.table then s.table[id := choice.state] else s.table,
           if choice.sent then s.published + [(id, choice.state)] else s.published,
           if choice.state.Running() then s.monitors + {id} else s.monitors)
  }

  function RecordAll(s: Shared, id: BackendId, choices: seq<Choice>): Shared {
    if choices == [] then s
    else Record(RecordAll(s, id, choices[..|choices| - 1]), id, choices[|choices| - 1])
  }

  /** The states of a run that reached the database. */
  function Stored(choices: seq<Choice>): seq<BackendState> {
    if choices == [] then []
    else
      var last := choices[|choices| - 1];
      Stored(choices[..|choices| - 1]) + if last.stored then [last.state] else []
  }

  /** The states of a run that were published. */
  function Sent(choices: seq<Choice>): seq<BackendState> {
    if choices == [] then []
    else
      var last := choices[|choices| - 1];
      Sent(choices[..|choices| - 1]) + if last.sent then [last.state] else []
  }

  /** The run started a monitor. */
  predicate Monitored(choices: seq<Choice>) {
    choices != [] && (choices[|choices| - 1].state.Running() || Monitored(choices[..|choices| - 1]))
  }

  lemma OneMoreChoice(choices: seq<Choice>, c: Choice)
    ensures Stored(choices + [c]) == Stored(choices) + if c.stored then [c.state] else []
    ensures Sent(choices + [c]) == Sent(choices) + if c.sent then [c.state] else []
    ensures Monitored(choices + [c]) <==> c.state.Running() || Monitored(choices)
  {
    assert (choices + [c])[..|choices|] == choices;
  }

  /** What other results of the last writes change in the effects of a run. */
  lemma RelabelledEffects(o: Outcome, stored: bool, sent: bool)
    requires o.choices != []
    ensures
      var done, last := o.choices[..|o.choices| - 1], o.choices[|o.choices| - 1];
      var choices := Relabelled(o, stored, sent).choices;
      && choices != [] && choices[..|choices| - 1] == done && choices[|choices| - 1].state == last.state
      && Stored(choices) == Stored(done) + (if stored then [last.state] else [])
      && Stored(o.choices) == Stored(done) + (if last.stored then [last.state] else [])
      && Sent(choices) == Sent(done) + (if sent then [last.state] else [])
      && (Monitored(choices) <==> Monitored(o.choices))
  {
    var done, last := o.choices[..|o.choices| - 1], o.choices[|o.choices| - 1];
    OneMoreChoice(done, Choice(last.state, stored, sent));
  }

  function Messages(id: BackendId, states: seq<BackendState>): seq<(BackendId, BackendState)> {
    seq(|states|, i requires 0 <= i < |states| => (id, states[i]))
  }

  /** A run never touches the row or the monitor of another backend; its row is the last state it
      stored, its messages are the states it sent, in order, and it has a monitor if it had one or
      started one. */
  lemma {:induction false} RecordFrame(s: Shared, id: BackendId, choices: seq<Choice>)
    ensures
      var t, stored := RecordAll(s, id, choices), Stored(choices);
      && t.table == (if id in s.table && stored != [] then s.table[id := stored[|stored| - 1]] else s.table)
      && t.published == s.published + Messages(id, Sent(choices))
      && t.monitors == (if Monitored(choices) then s.monitors + {id} else s.monitors)
  {
    if choices != [] {
      RecordFrame(s, id, choices[..|choices| - 1]);
    }
  }

  lemma MonitorsFrame(s: Shared, id: BackendId, choices: seq<Choice>)
    ensures RecordAll(s, id, choices).monitors - {id} == s.monitors - {id}
  {
    RecordFrame(s, id, choices);
  }

  /** What one more round records. */
  lemma RecordContinued(s: Shared, id: BackendId, o: Outcome, round: Round)
    ensures
      var shared, reaction := RecordAll(s, id, o.choices), React(o.state, round);
      RecordAll(s, id, Continued(o, round).choices) ==
        match reaction
        case Chooses(next) => Record(shared, id, Choice(next, round.stored, round.sent))
        case EndsAs(last) => Record(shared, id, Choice(last, round.stored, round.sent))
        case _ => shared
  {
  }

  /** The run of `script` has come to `state` and `ending` after `attempts` attempts. */
  predicate Reached(initial: BackendState, script: seq<Round>, state: BackendState, ending: Ending, attempts: nat) {
    var o := Drive(initial, script);
    (state, ending, attempts) == (o.state, o.ending, o.attempts)
  }

  lemma RepeatCounts(initial: BackendState, script: seq<Round>, n: nat)
    requires n < |script|
    requires
      var o := Drive(initial, script[..n]);
      o.ending == Pending && React(o.state, script[n]) == Again
    ensures
      var o := Drive(initial, script[..n]);
      Drive(initial, script[..n + 1]) == o.(attempts := o.attempts + 1, received := o.received + 1)
  {
    DrivePrefix(initial, script, n);
  }

  /** The inner loop: an attempt that an interrupt cuts short is repeated, and changes nothing but
      the number of attempts and of signals received. */
  method InnerLoop(initial: BackendState, script: seq<Round>, from: nat, state: BackendState) returns (attempts: nat)
    requires from <= |script| && Reached(initial, script[..from], state, Pending, from)
    ensures from <= attempts <= |script| && Reached(initial, script[..attempts], state, Pending, attempts)
    ensures attempts < |script| ==> React(state, script[attempts]) != Again
    ensures Drive(initial, script[..attempts]).choices == Drive(initial, script[..from]).choices
    ensures Drive(initial, script[..attempts]).received == Drive(initial, script[..from]).received + attempts - from
  {
    attempts := from;
    ghost var o := Drive(initial, script[..from]);
    while attempts < |script| && React(state, script[attempts]) == Again
      invariant from <= attempts <= |script|
      invariant Drive(initial, script[..attempts]) == o.(attempts := attempts, received := o.received + attempts - from)
    {
      RepeatCounts(initial, script, attempts);
      attempts := attempts + 1;
    }
  }

  class Executor {
    var backendToMonitor: set<BackendId>
    var backendToListener: set<BackendId>
    var table: map<BackendId, BackendState>
    var published: seq<(BackendId, BackendState)>

    function View(): Shared
      reads this
    {
      Shared(table, published, backendToMonitor)
    }

    constructor ()
      ensures View() == Shared(map[], [], {}) && backendToListener == {}
    {
      backendToMonitor, backendToListener, table, published := {}, {}, map[], [];
    }

    /** `update_backend_state`, together with the monitor that a running state starts. */
    method Adopt(id: BackendId, choice: Choice)
      modifies `table, `published, `backendToMonitor
      ensures View() == Record(old(View()), id, choice)
    {
      if choice.state.Running() {
        backendToMonitor := backendToMonitor + {id};
      }
      if choice.stored && id in table {
        table := table[id := choice.state];
      }
      if choice.sent {
        published := published + [(id, choice.state)];
      }
    }

    /** The end of an attempt that is not repeated: the run ends or adopts a state. `n` attempts came
        before it in the run, which started from `before`. */
    method Conclude(id: BackendId, initial: BackendState, script: seq<Round>, n: nat, state: BackendState, ghost before: Shared)
      returns (next: BackendState, ending: Ending)
      requires n < |script| && Reached(initial, script[..n], state, Pending, n) && React(state, script[n]) != Again
      requires View() == RecordAll(before, id, Drive(initial, script[..n]).choices)
      modifies `table, `published, `backendToMonitor
      ensures Reached(initial, script[..n + 1], next, ending, n + 1)
      ensures View() == RecordAll(before, id, Drive(initial, script[..n + 1]).choices)
    {
      var round := script[n];
      DrivePrefix(initial, script, n);
      RecordContinued(before, id, Drive(initial, script[..n]), round);
      var reaction := React(state, round);
      if reaction.Ends? {
        return state, reaction.ending;
      }
      next := if reaction.Chooses? then reaction.next else reaction.last;
      ending := if reaction.Chooses? then Pending else Failure;
      Adopt(id, Choice(next, round.stored, round.sent));
    }

    /** One pass of the outer loop: attempts until one is not repeated, and its conclusion. */
    method Pass(id: BackendId, initial: BackendState, script: seq<Round>, from: nat, state: BackendState, ghost before: Shared)
      returns (next: BackendState, ending: Ending, attempts: nat)
      requires from < |script| && Reached(initial, script[..from], state, Pending, from)
      requires View() == RecordAll(before, id, Drive(initial, script[..from]).choices)
      modifies `table, `published, `backendToMonitor
      ensures from < attempts <= |script| && Reached(initial, script[..attempts], next, ending, attempts)
      ensures View() == RecordAll(before, id, Drive(initial, script[..attempts]).choices)
    {
      attempts := InnerLoop(initial, script, from, state);
      if attempts == |script| {
        return state, Pending, attempts;
      }
      next, ending := Conclude(id, initial, script, attempts, state, before);
      attempts := attempts + 1;
    }

    /** The state, ending and attempts of the run are those of `Drive`; its writes, messages and
        monitors are those of the chosen states in order; on a regular exit the id is in neither map
        and the entries of other backends are as they were. A run whose sender is lost returns
        without cleaning up. */
    method RunBackend(id: BackendId, initial: BackendState, script: seq<Round>)
      returns (state: BackendState, ending: Ending, attempts: nat)
      modifies this
      ensures
        var o := Drive(initial, script);
        var shared := RecordAll(old(View()), id, o.choices);
        && (state, ending, attempts) == (o.state, o.ending, o.attempts)
        && (ending == Stopped || ending == Failure ==>
              && View() == shared.(monitors := old(backendToMonitor) - {id})
              && backendToListener == old(backendToListener) - {id})
        && (ending == Pending || ending == Abandoned ==>
              && View() == shared
              && backendToListener == old(backendToListener) + {id})
    {
      backendToListener := backendToListener + {id};
      state, ending, attempts := initial, Pending, 0;
      while ending == Pending && attempts < |script|
        invariant attempts <= |script| && Reached(initial, script[..attempts], state, ending, attempts)
        invariant View() == RecordAll(old(View()), id, Drive(initial, script[..attempts]).choices)
        invariant backendToListener == old(backendToListener) + {id}
        decreases |script| - attempts
      {
        state, ending, attempts := Pass(id, initial, script, attempts, state, old(View()));
      }
      if ending == Pending {
        assert script[..attempts] == script;
      } else {
        EndedStays(initial, script, attempts);
      }
      if ending == Stopped || ending == Failure {
        MonitorsFrame(old(View()), id, Drive(initial, script).choices);
        backendToMonitor := backendToMonitor - {id};
        backendToListener := backendToListener - {id};
      }
    }
  }
}
