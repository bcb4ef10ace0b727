/** What every action keeps true of one backend, invariant by invariant. */
module ProtocolInvariants {
  import opened Lifecycle
  import opened RunLoop
  import opened Protocol

  /** `p` can be obtained from `w` by deleting elements. */
  predicate Subsequence<T(==)>(p: seq<T>, w: seq<T>) {
    if p == [] then true
    else if w == [] then false
    else (p[|p| - 1] == w[|w| - 1] && Subsequence(p[..|p| - 1], w[..|w| - 1])) || Subsequence(p, w[..|w| - 1])
  }

  lemma {:induction false} SubsequenceGrows<T>(p: seq<T>, w: seq<T>, x: T)
    requires Subsequence(p, w)
    ensures Subsequence(p, w + [x]) && Subsequence(p + [x], w + [x])
  {
    assert (w + [x])[..|w|] == w;
    assert (p + [x])[..|p|] == p;
  }

  /** The outcomes of the awaits that led a step attempt to `point`, completed by `step`. */
  function EnvOf(point: Point, step: StepAction): StepEnv {
    var status :=
      match point
      case Begin => None
      case Inspected(seen) => if step.StatusReturns? && step.ok then Some(seen.Status()) else None
      case Observed(addr) => Some(Up(addr))
      case Routing(addr) => Some(Up(addr))
      case Routed(addr) => Some(Up(addr))
      case Watching(_) => Some(Unknown);
    StepEnv(step.LoadReturns? && step.ok, status,
            !step.PortReturns? || step.ok, step.RouteReturns? && step.ok,
            step.IdleReturns? && step.swept, step.StopReturns? && step.ok)
  }

  /** Await by await, an attempt computes what `Step` computes in one go. */
  lemma AttemptIsStep(state: BackendState, point: Point, step: StepAction, container: Container)
    requires StepEnabled(state, point, step, container)
    ensures Advance(state, point, step, container).Returns? ==>
              Advance(state, point, step, container).result == Step(state, EnvOf(point, step))
  {
  }

  /** Actions of the engine, the forwarder and the kill requests. */
  predicate External(act: LocalAction) {
    || act.EngineStarts? || act.EngineDies? || act.EngineRemoves?
    || act.DieForwarded? || act.KillArrives? || act.KillSends?
  }

  /** The environment reaches a run only through its channel. */
  lemma ExternalFrame(l: Local, act: LocalAction, stream: Stream)
    requires LocalEnabled(l, act, stream) && External(act)
    ensures
      var m := LocalAfter(l, act, stream);
      && (m.row, m.written, m.published, m.clean) == (l.row, l.written, l.published, l.clean)
      && (m.listener, m.monitor) == (l.listener, l.monitor)
      && (l.run.None? <==> m.run.None?)
      && (l.run.Some? ==> m.run.value == l.run.value.(channel := m.run.value.channel, parked := m.run.value.parked))
  {
  }

  /** Map ownership: who holds an entry in `backend_to_listener` and `backend_to_monitor`. */
  predicate Owned(l: Local) {
    match l.run
    case None => !l.listener && !l.monitor
    case Some(r) =>
      && (r.parked > 0 ==> r.channel != Empty) && (r.state == Loading ==> !l.monitor)
      && (match r.phase
          case Announcing => !l.listener && !l.monitor && r.state == Loading && r.channel == Empty
          case Spawned => !l.listener && (l.monitor <==> r.state.Running()) && r.channel == Empty
          case Entering => !l.listener && (l.monitor <==> r.state.Running()) && r.channel == Empty
          case _ => l.listener && (r.state.Running() ==> l.monitor))
  }

  lemma OwnedStep(l: Local, step: StepAction, stream: Stream)
    requires LocalEnabled(l, Steps(step), stream) && Owned(l)
    ensures Owned(LocalAfter(l, Steps(step), stream))
  {
  }

  lemma OwnedRest(l: Local, act: LocalAction, stream: Stream)
    requires LocalEnabled(l, act, stream) && Owned(l) && !act.Steps?
    ensures Owned(LocalAfter(l, act, stream))
  {
  }

  lemma OwnedKept(l: Local, act: LocalAction, stream: Stream)
    requires LocalEnabled(l, act, stream) && Owned(l)
    ensures Owned(LocalAfter(l, act, stream))
  {
    if act.Steps? {
      OwnedStep(l, act.step, stream);
    } else {
      OwnedRest(l, act, stream);
    }
  }

  /** Lifecycle order: the database history is ordered, it ends in the stored row, and whatever the
      run holds in memory may legally be written over that row. */
  predicate Disciplined(l: Local) {
    && Ordered(l.written)
    && (l.row.None? <==> l.written == [])
    && (l.row.Some? ==> l.row.value == l.written[|l.written| - 1])
    && (l.run.Some? ==>
          var r := l.run.value;
          && r.state != TimedOutBeforeReady
          && (l.row.Some? ==>
                || Follows(l.row.value, r.state)
                || (!r.phase.Writing? && l.row.value == r.state))
          && ((r.phase.Writing? || r.phase.Publishing?) && r.phase.final ==> r.state == ErrorLoading))
  }

  lemma DisciplinedStep(l: Local, step: StepAction, stream: Stream)
    requires LocalEnabled(l, Steps(step), stream) && Disciplined(l)
    ensures Disciplined(LocalAfter(l, Steps(step), stream))
  {
    var r := l.run.value;
    AttemptIsStep(r.state, r.phase.point, step, l.container);
    StepAdvances(r.state, EnvOf(r.phase.point, step));
  }

  lemma DisciplinedWrite(l: Local, ok: bool, stream: Stream)
    requires LocalEnabled(l, Persists(ok), stream) && Disciplined(l)
    ensures Disciplined(LocalAfter(l, Persists(ok), stream))
  {
  }

  lemma DisciplinedLoop(l: Local, act: LocalAction, stream: Stream)
    requires LocalEnabled(l, act, stream) && Disciplined(l)
    requires !External(act) && !act.Steps? && !act.Persists?
    ensures Disciplined(LocalAfter(l, act, stream)) && LocalAfter(l, act, stream).written == l.written
  {
    var m := LocalAfter(l, act, stream);
    assert (m.row, m.written) == (l.row, l.written);
  }

  lemma DisciplinedKept(l: Local, act: LocalAction, stream: Stream)
    requires LocalEnabled(l, act, stream) && Disciplined(l)
    ensures Disciplined(LocalAfter(l, act, stream))
    ensures l.written <= LocalAfter(l, act, stream).written
  {
    if External(act) {
      ExternalFrame(l, act, stream);
    } else if act.Steps? {
      DisciplinedStep(l, act.step, stream);
    } else if act.Persists? {
      DisciplinedWrite(l, act.ok, stream);
    } else {
      DisciplinedLoop(l, act, stream);
    }
  }

  /** Publication: as long as no database write failed, the row is what the run holds, and what was
      published was written before, in the same order. */
  predicate Echoed(l: Local) {
    l.clean ==>
      && l.written != []
      && Subsequence(l.published, l.written)
      && (l.run.Some? ==>
            var r := l.run.value;
            && (!r.phase.Writing? ==> l.row == Some(r.state))
            && (r.phase.Publishing? || r.phase.Announcing? ==>
                  Subsequence(l.published, l.written[..|l.written| - 1]))
            && (r.phase.Announcing? ==> r.state == Loading))
  }

  lemma EchoedWrite(l: Local, ok: bool, stream: Stream)
    requires LocalEnabled(l, Persists(ok), stream) && Disciplined(l) && Echoed(l)
    ensures Echoed(LocalAfter(l, Persists(ok), stream))
  {
  }

  lemma TellLast(published: seq<BackendState>, written: seq<BackendState>, last: BackendState)
    requires written != [] && last == written[|written| - 1]
    requires Subsequence(published, written[..|written| - 1])
    ensures Subsequence(published, written) && Subsequence(published + [last], written)
  {
    SubsequenceGrows(published, written[..|written| - 1], last);
    assert written == written[..|written| - 1] + [last];
  }

  lemma EchoedAnnounced(l: Local, sent: bool, stream: Stream)
    requires LocalEnabled(l, Announces(sent), stream) && Disciplined(l) && Echoed(l)
    ensures Echoed(LocalAfter(l, Announces(sent), stream))
  {
    if l.clean {
      TellLast(l.published, l.written, Loading);
    }
  }

  lemma EchoedPublished(l: Local, sent: bool, stream: Stream)
    requires LocalEnabled(l, Publishes(sent), stream) && Disciplined(l) && Echoed(l)
    ensures Echoed(LocalAfter(l, Publishes(sent), stream))
  {
    if l.clean {
      TellLast(l.published, l.written, l.run.value.state);
    }
  }

  lemma EchoedRest(l: Local, act: LocalAction, stream: Stream)
    requires LocalEnabled(l, act, stream) && Disciplined(l) && Echoed(l)
    requires !External(act) && !act.Persists? && !act.Announces? && !act.Publishes?
    ensures Echoed(LocalAfter(l, act, stream))
  {
  }

  lemma EchoedKept(l: Local, act: LocalAction, stream: Stream)
    requires LocalEnabled(l, act, stream) && Disciplined(l) && Echoed(l)
    ensures Echoed(LocalAfter(l, act, stream))
  {
    if External(act) {
      ExternalFrame(l, act, stream);
    } else if act.Persists? {
      EchoedWrite(l, act.ok, stream);
    } else if act.Announces? {
      EchoedAnnounced(l, act.sent, stream);
    } else if act.Publishes? {
      EchoedPublished(l, act.sent, stream);
    } else {
      EchoedRest(l, act, stream);
    }
  }

  /** Only the steps of Starting and Ready have more than one await. */
  predicate Staged(l: Local) {
    l.run.Some? && l.run.value.phase.Attempt? && l.run.value.phase.point != Begin ==> l.run.value.state.Running()
  }

  lemma StagedKept(l: Local, act: LocalAction, stream: Stream)
    requires LocalEnabled(l, act, stream) && Staged(l)
    ensures Staged(LocalAfter(l, act, stream))
  {
  }

  predicate Witnessed(c: Container, o: Origin) {
    match c
    case Live(addr) => addr in o.addresses
    case Dead(code) => code in o.deaths
    case Absent => true
  }

  predicate PointWitnessed(point: Point, o: Origin) {
    match point
    case Inspected(seen) => Witnessed(seen, o)
    case Observed(addr) => addr in o.addresses
    case Routing(addr) => addr in o.addresses
    case Routed(addr) => addr in o.addresses
    case _ => true
  }

  predicate RunGrounded(r: Run, o: Origin) {
    && (r.phase.Attempt? ==> PointWitnessed(r.phase.point, o))
    && (r.channel == Full(Terminate) || r.channel == Promised || r.parked > 0 ==> o.killed)
  }

  /** What the run goes by has happened: the container has had its addresses and died its deaths, and
      a kill request has arrived before it is signalled. */
  predicate Grounded(l: Local) {
    && Witnessed(l.container, l.origin)
    && (l.run.Some? ==> RunGrounded(l.run.value, l.origin))
  }

  predicate Extends(o: Origin, p: Origin) {
    o.addresses <= p.addresses && o.deaths <= p.deaths && (o.killed ==> p.killed)
  }

  lemma GroundedGrows(l: Local, o: Origin)
    requires Grounded(l) && Extends(l.origin, o)
    ensures Grounded(l.(origin := o))
  {
  }

  lemma GroundedExternal(l: Local, act: LocalAction, stream: Stream)
    requires LocalEnabled(l, act, stream) && Grounded(l) && External(act)
    ensures Grounded(LocalAfter(l, act, stream)) && Extends(l.origin, LocalAfter(l, act, stream).origin)
  {
    GroundedGrows(l, LocalAfter(l, act, stream).origin);
    ExternalFrame(l, act, stream);
  }

  lemma GroundedStep(l: Local, step: StepAction, stream: Stream)
    requires LocalEnabled(l, Steps(step), stream) && Grounded(l)
    ensures Grounded(LocalAfter(l, Steps(step), stream))
  {
  }

  lemma GroundedRest(l: Local, act: LocalAction, stream: Stream)
    requires LocalEnabled(l, act, stream) && Grounded(l) && !External(act) && !act.Steps?
    ensures Grounded(LocalAfter(l, act, stream)) && LocalAfter(l, act, stream).origin == l.origin
  {
  }

  lemma GroundedKept(l: Local, act: LocalAction, stream: Stream)
    requires LocalEnabled(l, act, stream) && Grounded(l)
    ensures Grounded(LocalAfter(l, act, stream)) && Extends(l.origin, LocalAfter(l, act, stream).origin)
  {
    if External(act) {
      GroundedExternal(l, act, stream);
    } else if act.Steps? {
      GroundedStep(l, act.step, stream);
    } else {
      GroundedRest(l, act, stream);
    }
  }

  /** The run has got as far as `o`, up to the attempt in progress. */
  predicate Progress(r: Run, o: Outcome) {
    && (r.state, r.received) == (o.state, o.received)
    && (match r.phase
        case Announcing => o == Outcome(r.initial, Pending, 0, 0, []) && r.attempts == 0
        case Spawned => o == Outcome(r.initial, Pending, 0, 0, []) && r.attempts == 0
        case Entering => o == Outcome(r.initial, Pending, 0, 0, []) && r.attempts == 0
        case Attempt(_) => o.ending == Pending && r.attempts == o.attempts + 1
        case Writing(final) => o.ending == (if final then Failure else Pending) && r.attempts == o.attempts
        case Publishing(final) => o.ending == (if final then Failure else Pending) && r.attempts == o.attempts
        case Leaving => (o.ending == Stopped || o.ending == Failure) && r.attempts == o.attempts)
  }

  predicate Wrote(l: Local, r: Run, choices: seq<Choice>) {
    l.written == r.before + Stored(choices)
  }

  predicate Told(l: Local, r: Run, choices: seq<Choice>) {
    l.published == r.heard + Sent(choices)
  }

  predicate Watched(l: Local, r: Run, choices: seq<Choice>) {
    l.monitor <==> r.initial.Running() || Monitored(choices)
  }

  /** The run has begun its loop. */
  predicate Entered(phase: Phase) {
    !phase.Announcing? && !phase.Spawned? && !phase.Entering?
  }

  /** What the run has written, published and monitored is what the loop does by its choices, except
      for the last of them while that is still being written or published. */
  predicate Effects(l: Local, choices: seq<Choice>)
    requires l.run.Some?
  {
    var r := l.run.value;
    match r.phase
    case Announcing => true
    case Spawned => true
    case Entering => true
    case Writing(_) =>
      && choices != [] && choices[|choices| - 1].state == r.state
      && Wrote(l, r, choices[..|choices| - 1]) && Told(l, r, choices[..|choices| - 1])
      && Watched(l, r, choices)
    case Publishing(_) =>
      && choices != [] && choices[|choices| - 1].state == r.state
      && Wrote(l, r, choices) && Told(l, r, choices[..|choices| - 1])
      && Watched(l, r, choices)
    case _ => Wrote(l, r, choices) && Told(l, r, choices) && Watched(l, r, choices)
  }

  predicate Tracks(l: Local, o: Outcome) {
    l.run.Some? && Progress(l.run.value, o) && Effects(l, o.choices)
  }

  /** Refinement: the run has done what the sequential loop does on `script`. */
  predicate Matches(l: Local, script: seq<Round>) {
    && l.run.Some? && Tracks(l, Drive(l.run.value.initial, script))
    && (l.run.value.phase.Writing? || l.run.value.phase.Publishing? ==> ChoosesLast(l.run.value.initial, script))
  }

  ghost predicate Driven(l: Local) {
    l.run.Some? ==> exists script :: Matches(l, script)
  }

  /** Where an attempt waits, and what waits for it, is no matter to the script. */
  lemma DrivenSame(l: Local, m: Local)
    requires Driven(l) && (l.written, l.published, l.monitor) == (m.written, m.published, m.monitor)
    requires l.run.None? ==> m.run.None?
    requires l.run.Some? && m.run.Some? ==>
      var r, s := l.run.value, m.run.value;
      && r.(channel := s.channel, parked := s.parked, phase := s.phase) == s
      && (r.phase == s.phase || (r.phase.Attempt? && s.phase.Attempt?))
    ensures Driven(m)
  {
    if m.run.Some? {
      var script :| Matches(l, script);
      assert Tracks(m, Drive(l.run.value.initial, script));
      assert Matches(m, script);
    }
  }

  /** A round of the run is a round of the loop. */
  lemma RoundTaken(l: Local, m: Local, script: seq<Round>, round: Round)
    requires Matches(l, script) && Drive(l.run.value.initial, script).ending == Pending
    requires m.run.Some? && m.run.value.initial == l.run.value.initial
    requires Tracks(m, Continued(Drive(l.run.value.initial, script), round))
    requires m.run.value.phase.Writing? ==>
      |Drive(l.run.value.initial, script).choices| < |Continued(Drive(l.run.value.initial, script), round).choices|
    requires !m.run.value.phase.Publishing?
    ensures Matches(m, script + [round])
  {
    DriveSnoc(l.run.value.initial, script, round);
    assert (script + [round])[..|script|] == script;
  }

  lemma ChoiceMade(l: Local, m: Local, choices: seq<Choice>, c: Choice)
    requires l.run.Some? && l.run.value.phase.Attempt? && Effects(l, choices)
    requires m.run.Some? && m.run.value.phase.Writing? && m.run.value.state == c.state
    requires (m.written, m.published, m.monitor) == (l.written, l.published, l.monitor || c.state.Running())
    requires
      var r, s := l.run.value, m.run.value;
      (r.initial, r.before, r.heard) == (s.initial, s.before, s.heard)
    ensures Effects(m, choices + [c])
  {
    OneMoreChoice(choices, c);
    assert (choices + [c])[..|choices|] == choices;
  }

  /** A settled attempt has got one round further. */
  lemma SettleProgress(r: Run, o: Outcome, round: Round)
    requires Progress(r, o) && r.phase.Attempt? && round.race == StepWins
    ensures
      var s, p := Settled(r, Step(r.state, round.env)), Continued(o, round);
      && Progress(s, p) && !s.phase.Publishing? && Entered(s.phase) && !s.phase.Attempt?
      && p.choices == if s.phase.Writing? then o.choices + [Choice(s.state, round.stored, round.sent)] else o.choices
  {
  }

  lemma SettleTracks(l: Local, o: Outcome, round: Round)
    requires Tracks(l, o) && l.run.value.phase.Attempt? && round.race == StepWins
    ensures
      var m := Settle(l, Step(l.run.value.state, round.env));
      && Tracks(m, Continued(o, round)) && !m.run.value.phase.Publishing?
      && (m.run.value.phase.Writing? ==> |o.choices| < |Continued(o, round).choices|)
  {
    var m := Settle(l, Step(l.run.value.state, round.env));
    SettleProgress(l.run.value, o, round);
    if m.run.value.phase.Writing? {
      ChoiceMade(l, m, o.choices, Choice(m.run.value.state, round.stored, round.sent));
    }
  }

  /** A completed await moves the attempt to its next await, or settles it as `Step` says. */
  lemma StepSettles(l: Local, step: StepAction, stream: Stream)
    requires LocalEnabled(l, Steps(step), stream)
    ensures
      var r := l.run.value;
      LocalAfter(l, Steps(step), stream) ==
        match Advance(r.state, r.phase.point, step, l.container)
        case To(point) => l.(run := Some(r.(phase := Attempt(point))))
        case Returns(_) => Settle(l, Step(r.state, EnvOf(r.phase.point, step)))
  {
    AttemptIsStep(l.run.value.state, l.run.value.phase.point, step, l.container);
  }

  lemma DrivenStep(l: Local, step: StepAction, stream: Stream)
    requires LocalEnabled(l, Steps(step), stream) && Driven(l)
    ensures Driven(LocalAfter(l, Steps(step), stream))
  {
    var r := l.run.value;
    var script :| Matches(l, script);
    StepSettles(l, step, stream);
    if Advance(r.state, r.phase.point, step, l.container).Returns? {
      var round := SMOOTH.(env := EnvOf(r.phase.point, step));
      SettleTracks(l, Drive(r.initial, script), round);
      RoundTaken(l, LocalAfter(l, Steps(step), stream), script, round);
    } else {
      DrivenSame(l, LocalAfter(l, Steps(step), stream));
    }
  }

  /** A signal ends the round too. */
  lemma SignalProgress(r: Run, o: Outcome, round: Round)
    requires Progress(r, o) && r.phase.Attempt? && r.state != Swept && r.channel.Full?
    requires round.race == Receives(r.channel.signal)
    ensures
      var s, p := Signalled(r), Continued(o, round);
      && Progress(s, p) && (s.phase.Writing? || s.phase.Attempt?)
      && (s.initial, s.before, s.heard) == (r.initial, r.before, r.heard)
      && (s.phase.Writing? ==> s.state == Terminated)
      && p.choices == if s.phase.Writing? then o.choices + [Choice(s.state, round.stored, round.sent)] else o.choices
  {
  }

  lemma SignalTracks(l: Local, o: Outcome, round: Round)
    requires Tracks(l, o) && l.run.value.phase.Attempt? && l.run.value.state != Swept && l.run.value.channel.Full?
    requires round.race == Receives(l.run.value.channel.signal)
    ensures
      var m := l.(run := Some(Signalled(l.run.value)));
      && Tracks(m, Continued(o, round)) && !m.run.value.phase.Publishing?
      && (m.run.value.phase.Writing? ==> |o.choices| < |Continued(o, round).choices|)
  {
    var m := l.(run := Some(Signalled(l.run.value)));
    SignalProgress(l.run.value, o, round);
    if m.run.value.phase.Writing? {
      ChoiceMade(l, m, o.choices, Choice(m.run.value.state, round.stored, round.sent));
    }
  }

  lemma DrivenSignal(l: Local, stream: Stream)
    requires LocalEnabled(l, TakesSignal, stream) && Driven(l)
    ensures Driven(LocalAfter(l, TakesSignal, stream))
  {
    var r := l.run.value;
    var script :| Matches(l, script);
    var round := SMOOTH.(race := Receives(r.channel.signal));
    SignalTracks(l, Drive(r.initial, script), round);
    RoundTaken(l, LocalAfter(l, TakesSignal, stream), script, round);
  }

  lemma ChoiceWritten(l: Local, m: Local, o: Outcome, stored: bool)
    requires Tracks(l, o) && l.run.value.phase.Writing?
    requires m.run == Some(l.run.value.(phase := Publishing(l.run.value.phase.final)))
    requires m.written == l.written + (if stored then [l.run.value.state] else [])
    requires (m.published, m.monitor) == (l.published, l.monitor)
    ensures Tracks(m, Relabelled(o, stored, true))
  {
    RelabelledEffects(o, stored, true);
  }

  lemma ChoicePublished(l: Local, m: Local, o: Outcome, sent: bool)
    requires Tracks(l, o) && l.run.value.phase.Publishing?
    requires m.run == Some(if l.run.value.phase.final then l.run.value.(phase := Leaving) else BeginAttempt(l.run.value))
    requires m.published == l.published + (if sent then [l.run.value.state] else [])
    requires (m.written, m.monitor) == (l.written, l.monitor)
    ensures Tracks(m, Relabelled(o, o.choices[|o.choices| - 1].stored, sent))
  {
    var choices := Relabelled(o, o.choices[|o.choices| - 1].stored, sent).choices;
    RelabelledEffects(o, o.choices[|o.choices| - 1].stored, sent);
    assert Wrote(m, m.run.value, choices) && Told(m, m.run.value, choices) && Watched(m, m.run.value, choices);
  }

  /** Whether a choice is stored and sent turns out after it was made: the script is told then. */
  lemma ChoiceTold(l: Local, m: Local, script: seq<Round>, stored: bool, sent: bool)
    requires Matches(l, script) && ChoosesLast(l.run.value.initial, script)
    requires m.run.Some? && m.run.value.initial == l.run.value.initial
    requires Tracks(m, Relabelled(Drive(l.run.value.initial, script), stored, sent))
    ensures Driven(m)
  {
    LastRound(l.run.value.initial, script, stored, sent);
    var changed := script[..|script| - 1] + [script[|script| - 1].(stored := stored, sent := sent)];
    assert Matches(m, changed);
  }

  lemma DrivenWrite(l: Local, ok: bool, stream: Stream)
    requires LocalEnabled(l, Persists(ok), stream) && Driven(l)
    ensures Driven(LocalAfter(l, Persists(ok), stream))
  {
    var script :| Matches(l, script);
    ChoiceWritten(l, LocalAfter(l, Persists(ok), stream), Drive(l.run.value.initial, script), ok && l.row.Some?);
    ChoiceTold(l, LocalAfter(l, Persists(ok), stream), script, ok && l.row.Some?, true);
  }

  lemma DrivenPublish(l: Local, sent: bool, stream: Stream)
    requires LocalEnabled(l, Publishes(sent), stream) && Driven(l)
    ensures Driven(LocalAfter(l, Publishes(sent), stream))
  {
    var script :| Matches(l, script);
    var o := Drive(l.run.value.initial, script);
    ChoicePublished(l, LocalAfter(l, Publishes(sent), stream), o, sent);
    ChoiceTold(l, LocalAfter(l, Publishes(sent), stream), script, o.choices[|o.choices| - 1].stored, sent);
  }

  /** `run_backend` begins with an empty script. */
  lemma DrivenEnter(l: Local, act: LocalAction, stream: Stream)
    requires LocalEnabled(l, act, stream) && Driven(l) && Owned(l) && (act.Announces? || act.Begins? || act.Enters?)
    ensures Driven(LocalAfter(l, act, stream))
  {
    var script :| Matches(l, script);
    assert Tracks(LocalAfter(l, act, stream), Drive(l.run.value.initial, script));
    assert Matches(LocalAfter(l, act, stream), script);
  }

  lemma DrivenKept(l: Local, act: LocalAction, stream: Stream)
    requires LocalEnabled(l, act, stream) && Driven(l) && Owned(l)
    ensures Driven(LocalAfter(l, act, stream))
  {
    if act.Steps? {
      DrivenStep(l, act.step, stream);
    } else if act.TakesSignal? {
      DrivenSignal(l, stream);
    } else if act.Persists? {
      DrivenWrite(l, act.ok, stream);
    } else if act.Publishes? {
      DrivenPublish(l, act.sent, stream);
    } else if act.Announces? || act.Begins? || act.Enters? {
      DrivenEnter(l, act, stream);
    } else if External(act) {
      ExternalFrame(l, act, stream);
      DrivenSame(l, LocalAfter(l, act, stream));
    }
  }

  /** The row of a backend changes only when its own run succeeds in writing a state. */
  lemma RowChange(l: Local, act: LocalAction, stream: Stream)
    requires LocalEnabled(l, act, stream)
    ensures LocalAfter(l, act, stream).row ==
            if act == Persists(true) && l.row.Some? then Some(l.run.value.state) else l.row
  {
    if External(act) {
      ExternalFrame(l, act, stream);
    }
  }

  ghost predicate Sound(l: Local) {
    Owned(l) && Disciplined(l) && Echoed(l) && Staged(l) && Grounded(l) && Driven(l)
  }

  /** A backend without a run gets none, and Die events appear only in a live stream. */
  lemma NothingAppears(l: Local, act: LocalAction, stream: Stream)
    requires LocalEnabled(l, act, stream)
    ensures l.run.None? ==> LocalAfter(l, act, stream).run.None?
    ensures stream != Connected ==> LocalAfter(l, act, stream).undelivered == l.undelivered
  {
  }

  lemma SoundKept(l: Local, act: LocalAction, stream: Stream)
    requires LocalEnabled(l, act, stream) && Sound(l)
    ensures Sound(LocalAfter(l, act, stream)) && l.written <= LocalAfter(l, act, stream).written
    ensures Extends(l.origin, LocalAfter(l, act, stream).origin)
  {
    GroundedKept(l, act, stream);
    OwnedKept(l, act, stream);
    DisciplinedKept(l, act, stream);
    EchoedKept(l, act, stream);
    StagedKept(l, act, stream);
    DrivenKept(l, act, stream);
  }

  lemma CrashedSound(l: Local)
    requires Sound(l)
    ensures Sound(Crashed(l))
  {
    assert l.clean ==> l.written[..|l.written| - 1] <= l.written;
  }

  lemma ResumedSound(l: Local)
    requires Sound(l) && l.run.None?
    ensures Sound(Resumed(l))
  {
    var n := |l.written|;
    assert n > 1 ==> Follows(l.written[n - 2], l.written[n - 1]);
    if l.row.Some? {
      assert Matches(Resumed(l), []);
    }
  }

  lemma DeafenedSound(l: Local)
    requires Sound(l)
    ensures Sound(Deafened(l))
  {
    DrivenSame(l, Deafened(l));
  }

  lemma FreshSound(inserted: bool)
    ensures Sound(Fresh(inserted))
  {
    assert Matches(Fresh(inserted), []);
  }

  /** The invariant of the whole drone: runs exist only while it serves, and Die events only wait
      in a live stream. */
  ghost predicate Invariant(w: World) {
    && (w.mode == Down ==> w.stream == Unconnected)
    && (forall id :: id in w.locals ==>
          && Sound(w.locals[id])
          && (w.mode != Serving ==> w.locals[id].run.None?)
          && (w.stream != Connected ==> w.locals[id].undelivered == 0))
  }

  /** What an action leaves of one backend. */
  ghost predicate Keeps(w: World, a: Action, id: BackendId)
    requires Enabled(w, a) && id in After(w, a).locals
  {
    var v := After(w, a);
    && Sound(v.locals[id])
    && (v.mode != Serving ==> v.locals[id].run.None?) && (v.stream != Connected ==> v.locals[id].undelivered == 0)
    && (id in w.locals ==>
          w.locals[id].written <= v.locals[id].written && Extends(w.locals[id].origin, v.locals[id].origin))
  }

  lemma RouteKept(w: World, id: BackendId, now: int)
    requires Enabled(w, WritesRoute(id, now)) && Invariant(w)
    ensures Keeps(w, WritesRoute(id, now), id)
  {
    DrivenSame(w.locals[id], After(w, WritesRoute(id, now)).locals[id]);
  }

  lemma ActKept(w: World, id: BackendId, act: LocalAction)
    requires Enabled(w, Acts(id, act)) && Invariant(w)
    ensures Keeps(w, Acts(id, act), id)
  {
    SoundKept(w.locals[id], act, w.stream);
    NothingAppears(w.locals[id], act, w.stream);
  }

  lemma SystemKept(w: World, a: Action, id: BackendId)
    requires Enabled(w, a) && Invariant(w) && id in After(w, a).locals && !a.WritesRoute? && !a.Acts?
    ensures Keeps(w, a, id)
  {
    match a
    case Resumes => ResumedSound(w.locals[id]);
    case Crashes => CrashedSound(w.locals[id]);
    case StreamEnds => DeafenedSound(w.locals[id]);
    case Spawns(_, inserted) => if id == a.id { FreshSound(inserted); }
    case _ =>
  }

  /** What one action does to one backend. */
  lemma LocalKept(w: World, a: Action, id: BackendId)
    requires Enabled(w, a) && Invariant(w) && id in After(w, a).locals
    ensures Keeps(w, a, id)
  {
    if a.WritesRoute? && a.id == id {
      RouteKept(w, id, a.now);
    } else if a.Acts? && a.id == id {
      ActKept(w, id, a.act);
    } else if !a.Acts? && !a.WritesRoute? {
      SystemKept(w, a, id);
    }
  }

  /** Every action keeps the invariant, and no action takes back a database write. */
  lemma InvariantKept(w: World, a: Action)
    requires Enabled(w, a) && Invariant(w)
    ensures Invariant(After(w, a))
    ensures forall id :: id in w.locals ==>
      id in After(w, a).locals && w.locals[id].written <= After(w, a).locals[id].written
  {
    forall id | id in After(w, a).locals {
      LocalKept(w, a, id);
    }
  }
}
