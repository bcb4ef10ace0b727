/** When an attempt learns that its container has died, over every behaviour of the drone. */
module WakeUpTheorems {
  import opened Lifecycle
  import opened Protocol
  import opened ProtocolInvariants
  import opened Continuations
  import opened ProtocolTheorems
  import opened TerminalTheorems
  import opened ThreadTheorems

  /** An attempt of a Starting or Ready step acts on having seen the container up. */
  predicate Relies(l: Local) {
    l.run.Some? && l.run.value.phase.Attempt? && l.run.value.phase.point.SawUp()
  }

  /** It does so although the container is gone, and no signal is in its channel. */
  predicate Dozing(l: Local) {
    Relies(l) && !l.container.Live? && l.run.value.channel == Empty
  }

  /** And nothing will tell it. */
  predicate Asleep(l: Local) {
    Dozing(l) && l.undelivered == 0
  }

  predicate Dies(a: Action, id: BackendId) {
    a.Acts? && a.id == id && a.act.EngineDies?
  }

  /** The container is started again, or a signal for the backend is on its way. */
  predicate Stirs(a: Action, id: BackendId) {
    a.Acts? && a.id == id && (a.act.EngineStarts? || a.act.KillArrives? || a.act.DieForwarded?)
  }

  /** At `j` the container of `id` died under an attempt whose channel was empty, and up to `i` the
      same attempt has gone on undisturbed: no start of the container, no kill request and no event. */
  predicate DozedOff(ws: seq<World>, acts: seq<Action>, j: nat, i: nat, id: BackendId) {
    && j < i < |ws| && |ws| == |acts| + 1 && id in ws[i].locals && Relies(ws[i].locals[id])
    && if j + 1 < i then DozedOff(ws, acts, j, i - 1, id) && !Stirs(acts[i - 1], id)
       else
         && Dies(acts[j], id) && id in ws[j].locals && Relies(ws[j].locals[id])
         && ws[j].locals[id].run.value.channel == Empty
  }

  /** The event stream was not connected at the death, or has ended since. */
  predicate Missed(ws: seq<World>, acts: seq<Action>, j: nat, i: nat)
    requires j < i < |ws| && |ws| == |acts| + 1
  {
    ws[j].stream != Connected || exists k :: j < k < i && acts[k] == StreamEnds
  }

  // ---- one action -------------------------------------------------------------------------

  lemma LocalDoze(l: Local, act: LocalAction, stream: Stream)
    requires LocalEnabled(l, act, stream) && Dozing(LocalAfter(l, act, stream)) && Owned(l)
    ensures Relies(l) && l.run.value.channel == Empty
    ensures act.EngineDies? || (!l.container.Live? && !act.EngineStarts? && !act.KillArrives? && !act.DieForwarded?)
  {
  }

  lemma DozeStep(w: World, a: Action, id: BackendId)
    requires Enabled(w, a) && Invariant(w) && id in After(w, a).locals && Dozing(After(w, a).locals[id])
    ensures id in w.locals && Relies(w.locals[id]) && w.locals[id].run.value.channel == Empty
    ensures Dies(a, id) || (Dozing(w.locals[id]) && !Stirs(a, id))
  {
    if a.Acts? && a.id == id {
      LocalDoze(w.locals[id], a.act, w.stream);
    }
  }

  /** An attempt that dozes was dozing before, or its container has just died. */
  lemma DozeBegins(ws: seq<World>, acts: seq<Action>, i: nat, id: BackendId)
    requires Behaviour(ws, acts) && i < |acts| && id in ws[i + 1].locals && Dozing(ws[i + 1].locals[id])
    ensures id in ws[i].locals && Relies(ws[i].locals[id]) && ws[i].locals[id].run.value.channel == Empty
    ensures Dies(acts[i], id) || (Dozing(ws[i].locals[id]) && !Stirs(acts[i], id))
  {
    InvariantHolds(ws, acts, i);
    DozeStep(ws[i], acts[i], id);
  }

  lemma LocalDozesOn(l: Local, act: LocalAction, stream: Stream)
    requires LocalEnabled(l, act, stream) && Dozing(l) && Relies(LocalAfter(l, act, stream))
    requires !act.EngineStarts? && !act.KillArrives? && !act.DieForwarded?
    ensures Dozing(LocalAfter(l, act, stream)) && LocalAfter(l, act, stream).undelivered == l.undelivered
  {
  }

  /** An attempt that goes on undisturbed dozes on, and only the end of the stream takes its event. */
  lemma DozesOn(ws: seq<World>, acts: seq<Action>, i: nat, id: BackendId)
    requires Behaviour(ws, acts) && i < |acts| && id in ws[i].locals && Dozing(ws[i].locals[id])
    requires !Stirs(acts[i], id) && id in ws[i + 1].locals && Relies(ws[i + 1].locals[id])
    ensures Dozing(ws[i + 1].locals[id])
    ensures ws[i + 1].locals[id].undelivered == if acts[i] == StreamEnds then 0 else ws[i].locals[id].undelivered
  {
    InvariantHolds(ws, acts, i);
    if acts[i].Acts? && acts[i].id == id {
      LocalDozesOn(ws[i].locals[id], acts[i].act, ws[i].stream);
    }
  }

  lemma DiesUnderIt(ws: seq<World>, acts: seq<Action>, i: nat, id: BackendId)
    requires Behaviour(ws, acts) && i < |acts| && id in ws[i].locals && Dies(acts[i], id)
    requires Relies(ws[i].locals[id]) && ws[i].locals[id].run.value.channel == Empty
    ensures id in ws[i + 1].locals && Dozing(ws[i + 1].locals[id])
    ensures ws[i + 1].locals[id].undelivered == 0 <==> ws[i].stream != Connected
  {
    InvariantHolds(ws, acts, i);
  }

  // ---- whole behaviours -------------------------------------------------------------------

  lemma {:induction false} DozingDozedOff(ws: seq<World>, acts: seq<Action>, i: nat, id: BackendId)
    requires Behaviour(ws, acts) && i < |ws| && id in ws[i].locals && Dozing(ws[i].locals[id])
    ensures exists j :: DozedOff(ws, acts, j, i, id)
  {
    assert i > 0;
    DozeBegins(ws, acts, i - 1, id);
    if Dies(acts[i - 1], id) {
      assert DozedOff(ws, acts, i - 1, i, id);
    } else {
      DozingDozedOff(ws, acts, i - 1, id);
      var j :| DozedOff(ws, acts, j, i - 1, id);
      assert DozedOff(ws, acts, j, i, id);
    }
  }

  lemma MissedStep(ws: seq<World>, acts: seq<Action>, j: nat, i: nat)
    requires j < i && i + 1 < |ws| && |ws| == |acts| + 1
    ensures Missed(ws, acts, j, i + 1) <==> Missed(ws, acts, j, i) || acts[i] == StreamEnds
  {
  }

  /** The attempt dozes, and its event is lost exactly if the stream missed it. */
  predicate DozesSince(ws: seq<World>, acts: seq<Action>, j: nat, i: nat, id: BackendId) {
    && j < i < |ws| && |ws| == |acts| + 1 && id in ws[i].locals && Dozing(ws[i].locals[id])
    && (ws[i].locals[id].undelivered == 0 <==> Missed(ws, acts, j, i))
  }

  lemma DozesSinceDeath(ws: seq<World>, acts: seq<Action>, j: nat, id: BackendId)
    requires Behaviour(ws, acts) && j < |acts| && id in ws[j].locals && Dies(acts[j], id)
    requires Relies(ws[j].locals[id]) && ws[j].locals[id].run.value.channel == Empty
    ensures DozesSince(ws, acts, j, j + 1, id)
  {
    DiesUnderIt(ws, acts, j, id);
  }

  lemma DozesLonger(ws: seq<World>, acts: seq<Action>, j: nat, i: nat, id: BackendId)
    requires Behaviour(ws, acts) && DozesSince(ws, acts, j, i, id) && i < |acts|
    requires !Stirs(acts[i], id) && id in ws[i + 1].locals && Relies(ws[i + 1].locals[id])
    ensures DozesSince(ws, acts, j, i + 1, id)
  {
    DozesOn(ws, acts, i, id);
    MissedStep(ws, acts, j, i);
  }

  lemma {:induction false} DozedOffDozes(ws: seq<World>, acts: seq<Action>, j: nat, i: nat, id: BackendId)
    requires Behaviour(ws, acts) && DozedOff(ws, acts, j, i, id)
    ensures DozesSince(ws, acts, j, i, id)
    decreases i
  {
    if i == j + 1 {
      DozesSinceDeath(ws, acts, j, id);
    } else {
      var k := i - 1;
      assert DozedOff(ws, acts, j, k, id) && !Stirs(acts[k], id) && id in ws[i].locals && Relies(ws[i].locals[id]);
      DozedOffDozes(ws, acts, j, k, id);
      DozesLonger(ws, acts, j, k, id);
    }
  }

  /** No lost wake-up, for every behaviour: an attempt of a Starting or Ready step sleeps through the
      end of its container if and only if the container died under it with nothing in its channel,
      no event or kill request has reached it since, and the event stream was not connected at the
      death or ended before it had delivered the event. In particular interrupts that `try_send`
      drops on a full channel do no harm. */
  lemma NoLostWakeUp(ws: seq<World>, acts: seq<Action>, i: nat, id: BackendId)
    requires Behaviour(ws, acts) && i < |ws| && id in ws[i].locals
    ensures Asleep(ws[i].locals[id]) <==> exists j :: DozedOff(ws, acts, j, i, id) && Missed(ws, acts, j, i)
  {
    if Asleep(ws[i].locals[id]) {
      DozingDozedOff(ws, acts, i, id);
      var j :| DozedOff(ws, acts, j, i, id);
      DozedOffDozes(ws, acts, j, i, id);
    }
    if j :| DozedOff(ws, acts, j, i, id) && Missed(ws, acts, j, i) {
      DozedOffDozes(ws, acts, j, i, id);
    }
  }

  // ---- the wake-up arrives ----------------------------------------------------------------

  /** A kill request is in the channel or waits for it. */
  predicate KillPending(r: Run) {
    r.channel == Full(Terminate) || Locked(r)
  }

  /** What the forwarder, a pending kill request and the run still have to do. */
  function WakePlan(l: Local, stream: Stream): seq<LocalAction>
    requires l.run.Some? && l.run.value.phase.Attempt? && l.run.value.state != Swept
  {
    if KillPending(l.run.value) then KillPlan(l, stream)
    else (if l.run.value.channel == Empty then [DieForwarded] else [])
         + [TakesSignal, Steps(StatusReads), Steps(StatusReturns(true))]
  }

  predicate Finishing(l: Option<Local>) {
    l.Some? && l.value.run.Some? && l.value.run.value.state.Terminal() && l.value.run.value.phase == Writing(false)
  }

  /** Asking the engine again ends the attempt: in Starting whatever has become of the container, in
      Ready only while the engine still knows how it died. */
  predicate Telling(l: Local) {
    l.run.Some? && (l.container.Dead? || l.run.value.state == Starting)
  }

  /** After an interrupt, asking the engine again ends the attempt in a terminal state. */
  lemma InterruptNotices(l: Local, stream: Stream)
    requires !l.container.Live? && Telling(l)
    requires l.run.Some? && l.run.value.phase.Attempt? && l.run.value.state.Running()
    requires l.run.value.channel == Full(Interrupt)
    ensures Finishing(Play(l, [TakesSignal, Steps(StatusReads), Steps(StatusReturns(true))], stream))
  {
    var taken := LocalAfter(l, TakesSignal, stream);
    var asked := LocalAfter(taken, Steps(StatusReads), stream);
    PlayOne(l, TakesSignal, [Steps(StatusReads), Steps(StatusReturns(true))], stream);
    PlayOne(taken, Steps(StatusReads), [Steps(StatusReturns(true))], stream);
    PlayOne(asked, Steps(StatusReturns(true)), [], stream);
  }

  lemma WakePlanWorks(l: Local, stream: Stream)
    requires Owned(l) && Staged(l) && Relies(l) && !l.container.Live? && !Asleep(l)
    requires Telling(l) || KillPending(l.run.value)
    requires stream != Connected ==> l.undelivered == 0
    ensures Finishing(Play(l, WakePlan(l, stream), stream))
  {
    var rest := [TakesSignal, Steps(StatusReads), Steps(StatusReturns(true))];
    if KillPending(l.run.value) {
      KillReaches(l, stream);
    } else {
      match l.run.value.channel
      case Empty =>
        PlayOne(l, DieForwarded, rest, stream);
        InterruptNotices(LocalAfter(l, DieForwarded, stream), stream);
      case Full(signal) =>
        assert [] + rest == rest && signal == Interrupt;
        InterruptNotices(l, stream);
    }
  }

  /** Deliveries of what is already pending, and what runs do about them. */
  predicate Delivers(a: Action) {
    && a.Acts?
    && (|| a.act == DieForwarded || a.act == KillSends || a.act == TakesSignal || a.act == Leaves || a.act == Enters
        || a.act == Steps(StatusReads) || a.act == Steps(StatusReturns(true)))
  }

  predicate AllDeliver(more: seq<Action>) {
    forall k :: 0 <= k < |more| ==> Delivers(more[k])
  }

  /** The deliveries `more` bring the run of `id` to a terminal state. */
  predicate Wakes(w: World, more: seq<Action>, id: BackendId) {
    var v := Perform(w, more);
    AllDeliver(more) && v.Some? && id in v.value.locals && Finishing(Some(v.value.locals[id]))
  }

  lemma PlanDelivers(l: Local, id: BackendId, stream: Stream)
    requires l.run.Some? && l.run.value.phase.Attempt? && l.run.value.state != Swept && Owned(l)
    ensures AllDeliver(About(id, WakePlan(l, stream)))
  {
  }

  lemma PlanNeedsNoMap(l: Local, stream: Stream)
    requires l.run.Some? && l.run.value.phase.Attempt? && l.run.value.state != Swept
    ensures Enters !in WakePlan(l, stream) && Leaves !in WakePlan(l, stream)
  {
  }

  lemma WakeAfter(w: World, clear: seq<Action>, id: BackendId)
    requires Clears(w, clear) && id in w.locals && Relies(w.locals[id]) && Owned(w.locals[id]) && Staged(w.locals[id])
    requires w.stream != Connected ==> w.locals[id].undelivered == 0
    requires !w.locals[id].container.Live? && !Asleep(w.locals[id])
    requires Telling(w.locals[id]) || KillPending(w.locals[id].run.value)
    ensures exists more :: Wakes(w, more, id)
  {
    var v, plan := Perform(w, clear).value, WakePlan(w.locals[id], w.stream);
    WakePlanWorks(w.locals[id], w.stream);
    PlanDelivers(w.locals[id], id, w.stream);
    PlanNeedsNoMap(w.locals[id], w.stream);
    PlayPerforms(v, id, plan);
    PerformConcat(w, clear, About(id, plan));
    assert AllDeliver(clear);
    assert Wakes(w, clear + About(id, plan), id);
  }

  // ---- a useless wake-up ------------------------------------------------------------------

  /** A Ready attempt whose container has been removed, with no kill request pending: the engine can
      only say that it does not know the container, and the attempt goes back to its idle loop. */
  predicate Futile(l: Local) {
    && l.container == Absent && l.run.Some? && l.run.value.state == Ready && !KillPending(l.run.value)
    && l.run.value.phase.Attempt? && !(l.run.value.phase.point.Inspected? && l.run.value.phase.point.seen.Dead?)
  }

  lemma LocalFutile(l: Local, act: LocalAction, id: BackendId, stream: Stream)
    requires LocalEnabled(l, act, stream) && Futile(l) && Delivers(Acts(id, act))
    ensures Futile(LocalAfter(l, act, stream))
  {
  }

  lemma {:induction false} FutileForGood(w: World, more: seq<Action>, id: BackendId)
    requires id in w.locals && Futile(w.locals[id]) && Perform(w, more).Some?
    requires AllDeliver(more)
    ensures id in Perform(w, more).value.locals && Futile(Perform(w, more).value.locals[id])
    decreases |more|
  {
    if more != [] {
      if more[0].id == id {
        LocalFutile(w.locals[id], more[0].act, id, w.stream);
      }
      FutileForGood(After(w, more[0]), more[1..], id);
    }
  }

  lemma DeliveriesAreNoCrash(more: seq<Action>)
    requires AllDeliver(more)
    ensures Crashes !in more
  {
  }

  /** The wake-up is worth having: whenever a container that an attempt saw up is gone and the attempt
      is not asleep, the delivery of what is pending can bring the run to a terminal state exactly if
      no run is stuck and the news can tell: the backend is still Starting, or the engine still knows
      the dead container, or a kill request is among what is pending. */
  lemma WakeUpArrives(ws: seq<World>, acts: seq<Action>, i: nat, id: BackendId)
    requires Behaviour(ws, acts) && i < |ws| && id in ws[i].locals
    requires Relies(ws[i].locals[id]) && !ws[i].locals[id].container.Live? && !Asleep(ws[i].locals[id])
    ensures (exists more :: Wakes(ws[i], more, id)) <==>
            Flows(ws[i]) && (Telling(ws[i].locals[id]) || KillPending(ws[i].locals[id].run.value))
  {
    InvariantHolds(ws, acts, i);
    var w, l := ws[i], ws[i].locals[id];
    if Flows(w) && (Telling(l) || KillPending(l.run.value)) {
      ThreadClears(ws, acts, i);
      var clear :| Clears(w, clear);
      WakeAfter(w, clear, id);
    } else if more :| Wakes(w, more, id) {
      if !Flows(w) {
        var other :| other in w.locals && Stuck(w, other);
        DeliveriesAreNoCrash(more);
        StuckForGood(w, more, other, id);
      } else {
        assert Staged(l);
        FutileForGood(w, more, id);
      }
    }
  }
}
