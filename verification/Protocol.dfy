/** The backend lifecycle protocol of one drone as a labelled transition system.

    A `World` holds one `Local` record per backend that was ever spawned, the route table, and
    whether the agent and its Docker event stream are up. An action is one stretch of code between
    two awaits of the executor, or a step of its environment: containers start and die on their
    own, Die events are forwarded, kill requests arrive, database writes fail, the agent crashes.
    The agent runs on one thread, so a run that waits for a lock without an await stops all of it. */
module Protocol {
  import opened Lifecycle
  import opened Database

  datatype Container =
    | Absent
    | Live(addr: Address)
    | Dead(code: Option<int>)
  {
    /** What the engine answers when it is asked for the status of the container. */
    function Status(): EngineStatus {
      match this
      case Absent => Unknown
      case Live(addr) => Up(addr)
      case Dead(None) => Killed
      case Dead(Some(code)) => if code == 0 then ExitedZero else ExitedNonzero
    }
  }

  /** The capacity-1 signal channel of a run. `Promised`: its slot is reserved for a kill request
      that waited for it but has not been scheduled yet. */
  datatype Channel = Empty | Full(signal: Signal) | Promised

  /** Where a step attempt is waiting. */
  datatype Point =
    | Begin                     // the first await of the step: load, status or stop
    | Inspected(seen: Container) // the engine looked at the container; its answer is on the way
    | Observed(addr: Address)   // Starting: the container was up; waiting for its port
    | Routing(addr: Address)    // Starting: about to insert the route
    | Routed(addr: Address)     // Starting: the route is inserted, the step has not returned
    | Watching(seenUp: bool)    // Ready: the idle loop, and whether the container was seen up
  {
    /** The attempt acts on having seen the container up. */
    predicate SawUp() {
      (Inspected? && seen.Live?) || Observed? || Routing? || Routed? || (Watching? && seenUp)
    }
  }

  datatype Phase =
    | Announcing                // row inserted, Loading not yet published
    | Spawned                   // resumed, not yet scheduled
    | Entering                  // in run_backend, inserting its listener
    | Attempt(point: Point)     // in the inner loop, racing the step against the channel
    | Writing(final: bool)      // a new state was chosen and is not yet in the database
    | Publishing(final: bool)   // written, not yet published
    | Leaving                   // out of the loop, removing the monitor and the listener

  /** One activation of `run_backend`; all fields after `parked` are history. */
  datatype Run = Run(
    state: BackendState,
    phase: Phase,
    channel: Channel,
    parked: nat,                // kill requests waiting for the channel
    initial: BackendState,
    attempts: nat,              // step attempts begun
    received: nat,              // signals received
    before: seq<BackendState>,  // written for the backend before this run
    heard: seq<BackendState>)   // published for the backend before this run

  /** History: what the environment has done to a backend so far. */
  datatype Origin = Origin(
    addresses: set<Address>,    // addresses its container has had
    deaths: set<Option<int>>,   // exit codes its container has died with
    killed: bool)               // a kill request has arrived

  datatype Local = Local(
    row: Option<BackendState>,  // the state column of the backend's row
    container: Container,
    undelivered: nat,           // Die events the forwarder has not seen yet
    listener: bool,             // the id is in backend_to_listener
    monitor: bool,              // the id is in backend_to_monitor
    run: Option<Run>,
    written: seq<BackendState>, // history: states that reached the database
    published: seq<BackendState>,
    clean: bool,                // history: no database write of this backend has failed
    origin: Origin)

  datatype Mode = Down | Booted | Serving
  datatype Stream = Unconnected | Connected | Ended

  datatype World = World(
    mode: Mode,
    stream: Stream,
    locals: map<BackendId, Local>,
    routes: set<Row>,
    shards: map<BackendId, nat>) // where the listener map keeps an id; hashed anew at every boot

  /** One await of `step` completes. A stop is carried out by the engine's own actions. */
  datatype StepAction =
    | LoadReturns(ok: bool)
    | StatusReads
    | StatusReturns(ok: bool)
    | PortReturns(ok: bool)
    | RouteReturns(ok: bool)
    | IdleReturns(swept: bool)
    | StopReturns(ok: bool)

  datatype LocalAction =
    | EngineStarts(addr: Address)
    | EngineDies(code: Option<int>)
    | EngineRemoves
    | DieForwarded
    | KillArrives
    | KillSends
    | Announces(sent: bool)
    | Begins
    | Enters
    | Steps(step: StepAction)
    | TakesSignal
    | LosesSender
    | Persists(ok: bool)
    | Publishes(sent: bool)
    | Leaves

  datatype Action =
    | Boots(shards: map<BackendId, nat>)
    | Resumes
    | Crashes
    | StreamConnects
    | StreamEnds
    | Spawns(id: BackendId, inserted: bool)
    | WritesRoute(id: BackendId, now: int)
    | Acts(id: BackendId, act: LocalAction)

  /** Actions that are not carried out by the agent's one thread. */
  predicate Remote(act: LocalAction) {
    act.EngineStarts? || act.EngineDies? || act.EngineRemoves? || act == Steps(StatusReads)
  }

  /** The run has left its loop and removes its entries from the maps. */
  predicate Departing(l: Local) {
    l.run.Some? && l.run.value.phase == Leaving
  }

  /** The run holds the agent's thread until the listener map lets it insert or remove its entry: it
      waits for that without an await. */
  predicate Holding(l: Local) {
    l.run.Some? && (l.run.value.phase == Entering || l.run.value.phase == Leaving)
  }

  const INIT := World(Down, Unconnected, map[], {}, map[])

  // ---- one step attempt -------------------------------------------------------------------

  /** An await of the step leads to its next await, or to its result. */
  datatype Move = To(point: Point) | Returns(result: StepResult)

  predicate StepEnabled(state: BackendState, point: Point, step: StepAction, container: Container) {
    match step
    case LoadReturns(_) => state == Loading && point == Begin
    case StatusReads => state.Running() && point == Begin
    case StatusReturns(ok) => state.Running() && (point.Inspected? || (!ok && point == Begin))
    case PortReturns(_) => state == Starting && point.Observed?
    case RouteReturns(ok) => state == Starting && (point.Routed? || (!ok && point.Routing?))
    case IdleReturns(_) => state == Ready && point.Watching?
    case StopReturns(ok) => state.Terminal() && point == Begin && (ok ==> container == Absent)
  }

  function Advance(state: BackendState, point: Point, step: StepAction, container: Container): Move
    requires StepEnabled(state, point, step, container)
  {
    match step
    case LoadReturns(ok) => Returns(if ok then Next(Starting) else Error)
    case StatusReads => To(Inspected(container))
    case StatusReturns(ok) =>
      if !ok then Returns(Error)
      else if state == Starting then
        if point.seen.Live? then To(Observed(point.seen.addr)) else Returns(Next(ErrorStarting))
      else
        (match point.seen.Status()
         case ExitedNonzero => Returns(Next(Failed))
         case ExitedZero => Returns(Next(Exited))
         case Killed => Returns(Next(Swept))
         case _ => To(Watching(point.seen.Live?)))
    case PortReturns(ok) => if ok then To(Routing(point.addr)) else Returns(Error)
    case RouteReturns(ok) => Returns(if ok then Next(Ready) else Error)
    case IdleReturns(swept) => Returns(if swept then Next(Swept) else Error)
    case StopReturns(ok) => Returns(if ok then Done else Error)
  }

  // ---- actions on one backend -------------------------------------------------------------

  /** A kill request waits to send; for as long as it does, it keeps its shard of the listener map
      locked. */
  predicate Locked(r: Run) {
    r.parked > 0 || r.channel == Promised
  }

  predicate LocalEnabled(l: Local, act: LocalAction, stream: Stream) {
    match act
    case EngineStarts(_) => !l.container.Live?
    case EngineDies(_) => l.container.Live?
    case EngineRemoves => l.container.Dead?
    case DieForwarded => stream == Connected && l.undelivered > 0 && !Holding(l)
    case KillArrives => l.listener && l.run.Some? && !Holding(l)
    case KillSends => l.run.Some? && l.run.value.channel == Promised && !Holding(l)
    case Announces(_) => l.run.Some? && l.run.value.phase == Announcing
    case Begins => l.run.Some? && l.run.value.phase == Spawned
    case Enters => l.run.Some? && l.run.value.phase == Entering && !Locked(l.run.value)
    case Steps(step) =>
      && l.run.Some? && l.run.value.phase.Attempt?
      && StepEnabled(l.run.value.state, l.run.value.phase.point, step, l.container)
      // a load has succeeded once the engine has started the container
      && (step == LoadReturns(true) ==> l.origin.addresses != {})
    case TakesSignal =>
      l.run.Some? && l.run.value.phase.Attempt? && l.run.value.state != Swept && l.run.value.channel.Full?
    case LosesSender =>
      && l.run.Some? && l.run.value.phase.Attempt? && l.run.value.state != Swept
      && !l.listener && l.run.value.channel == Empty && l.run.value.parked == 0
    case Persists(_) => l.run.Some? && l.run.value.phase.Writing?
    case Publishes(_) => l.run.Some? && l.run.value.phase.Publishing?
    case Leaves => Departing(l) && !Locked(l.run.value)
  }

  /** The run loop is about to attempt a step. */
  function BeginAttempt(r: Run): Run {
    r.(phase := Attempt(Begin), attempts := r.attempts + 1)
  }

  /** The listener is registered, and the first attempt begins. */
  function Enter(l: Local): Local
    requires l.run.Some?
  {
    l.(listener := true, run := Some(BeginAttempt(l.run.value.(before := l.written, heard := l.published))))
  }

  /** The result of a step reaches the run loop. */
  function Settled(r: Run, result: StepResult): Run {
    match Judge(r.state, result)
    case Continue(s) => r.(state := s, phase := Writing(false))
    case Leave => r.(phase := Leaving)
    case LeaveAs(s) => r.(state := s, phase := Writing(true))
  }

  /** A new running state starts a monitor before it is written. */
  function Settle(l: Local, result: StepResult): Local
    requires l.run.Some?
  {
    var verdict := Judge(l.run.value.state, result);
    l.(monitor := l.monitor || (verdict.Continue? && verdict.next.Running()),
       run := Some(Settled(l.run.value, result)))
  }

  /** The slot of the channel is handed to a waiting kill request, if there is one. */
  function Received(r: Run): Run {
    if r.parked > 0 then r.(channel := Promised, parked := r.parked - 1, received := r.received + 1)
    else r.(channel := Empty, received := r.received + 1)
  }

  /** An interrupt restarts the attempt, a termination request ends it. */
  function Signalled(r: Run): Run
    requires r.channel.Full?
  {
    match r.channel.signal
    case Interrupt => BeginAttempt(Received(r))
    case Terminate => Received(r).(state := Terminated, phase := Writing(false))
  }

  function LocalAfter(l: Local, act: LocalAction, stream: Stream): Local
    requires LocalEnabled(l, act, stream)
  {
    match act
    case EngineStarts(addr) =>
      l.(container := Live(addr),
         origin := l.origin.(addresses := l.origin.addresses + {addr}))
    case EngineDies(code) =>
      // its Die event reaches the forwarder's queue only over a live stream
      var dead := l.(container := Dead(code), origin := l.origin.(deaths := l.origin.deaths + {code}));
      if stream == Connected then dead.(undelivered := l.undelivered + 1) else dead
    case EngineRemoves => l.(container := Absent)
    case DieForwarded =>
      // try_send drops the interrupt when the channel has no free slot
      if l.listener && l.run.Some? && l.run.value.channel == Empty then
        l.(undelivered := l.undelivered - 1, run := Some(l.run.value.(channel := Full(Interrupt))))
      else
        l.(undelivered := l.undelivered - 1)
    case KillArrives =>
      var r := l.run.value;
      l.(run := Some(if r.channel == Empty then r.(channel := Full(Terminate)) else r.(parked := r.parked + 1)),
         origin := l.origin.(killed := true))
    case KillSends => l.(run := Some(l.run.value.(channel := Full(Terminate))))
    case Announces(sent) =>
      var told := if sent then l.(published := l.published + [Loading]) else l;
      told.(run := Some(l.run.value.(phase := Entering)))
    case Begins => l.(run := Some(l.run.value.(phase := Entering)))
    case Enters => Enter(l)
    case Steps(step) =>
      var r := l.run.value;
      (match Advance(r.state, r.phase.point, step, l.container)
       case To(point) => l.(run := Some(r.(phase := Attempt(point))))
       case Returns(result) => Settle(l, result))
    case TakesSignal => l.(run := Some(Signalled(l.run.value)))
    case LosesSender => l.(run := None)
    case Persists(ok) =>
      var r := l.run.value;
      var moved := l.(run := Some(r.(phase := Publishing(r.phase.final))));
      if ok && l.row.Some? then moved.(row := Some(r.state), written := l.written + [r.state])
      else moved.(clean := false)
    case Publishes(sent) =>
      var r := l.run.value;
      var told := if sent then l.(published := l.published + [r.state]) else l;
      told.(run := Some(if r.phase.final then r.(phase := Leaving) else BeginAttempt(r)))
    case Leaves => l.(run := None, listener := false, monitor := false)
  }

  // ---- actions on the whole drone ---------------------------------------------------------

  function Fresh(inserted: bool): Local {
    Local(if inserted then Some(Loading) else None, Absent, 0, false, false,
          Some(Run(Loading, Announcing, Empty, 0, Loading, 0, 0, [], [])),
          if inserted then [Loading] else [], [], inserted, Origin({}, {}, false))
  }

  function Crashed(l: Local): Local {
    l.(undelivered := 0, listener := false, monitor := false, run := None)
  }

  /** Every backend in the table is resumed, terminal ones included. */
  function Resumed(l: Local): Local {
    if l.row.None? then l
    else l.(monitor := l.row.value.Running(), run := Some(Run(l.row.value, Spawned, Empty, 0, l.row.value, 0, 0, [], [])))
  }

  /** The forwarder stops; what it had not read is lost. */
  function Deafened(l: Local): Local {
    l.(undelivered := 0)
  }

  /** No run holds the agent's thread. */
  predicate Free(w: World) {
    forall id :: id in w.locals ==> !Holding(w.locals[id])
  }

  /** No run other than that of `id` holds the agent's thread. */
  predicate FreeFor(w: World, id: BackendId) {
    forall other :: other in w.locals && other != id ==> !Holding(w.locals[other])
  }

  /** The shard of the listener map that holds an id. */
  function ShardOf(w: World, id: BackendId): nat {
    if id in w.shards then w.shards[id] else 0
  }

  /** A kill request for another backend keeps the shard of `id` locked. */
  predicate Barred(w: World, id: BackendId) {
    exists other :: && other in w.locals && other != id && ShardOf(w, other) == ShardOf(w, id)
                    && w.locals[other].run.Some? && Locked(w.locals[other].run.value)
  }

  predicate Enabled(w: World, a: Action) {
    match a
    case Boots(_) => w.mode == Down
    case Resumes => w.mode == Booted
    case Crashes => true
    case StreamConnects => w.mode != Down && w.stream == Unconnected && Free(w)
    case StreamEnds => w.mode != Down && w.stream == Connected
    case Spawns(id, _) => w.mode == Serving && id !in w.locals && Free(w)
    case WritesRoute(id, _) =>
      && id in w.locals && w.locals[id].run.Some? && w.locals[id].run.value.state == Starting
      && w.locals[id].run.value.phase.Attempt? && w.locals[id].run.value.phase.point.Routing?
    case Acts(id, act) =>
      && id in w.locals && LocalEnabled(w.locals[id], act, w.stream) && (Remote(act) || FreeFor(w, id))
      && (act == Enters || act == Leaves ==> !Barred(w, id))
  }

  function After(w: World, a: Action): World
    requires Enabled(w, a)
  {
    match a
    case Boots(shards) => w.(mode := Booted, stream := Unconnected, shards := shards)
    case Resumes => w.(mode := Serving, locals := map id | id in w.locals :: Resumed(w.locals[id]))
    case Crashes => w.(mode := Down, stream := Unconnected, locals := map id | id in w.locals :: Crashed(w.locals[id]))
    case StreamConnects => w.(stream := Connected)
    case StreamEnds => w.(stream := Ended, locals := map id | id in w.locals :: Deafened(w.locals[id]))
    case Spawns(id, inserted) => w.(locals := w.locals[id := Fresh(inserted)])
    case WritesRoute(id, now) =>
      var l := w.locals[id];
      var addr := l.run.value.phase.point.addr;
      w.(locals := w.locals[id := l.(run := Some(l.run.value.(phase := Attempt(Routed(addr)))))],
         routes := InsertOrReplace(w.routes, Row(id, id, addr, now)))
    case Acts(id, act) => w.(locals := w.locals[id := LocalAfter(w.locals[id], act, w.stream)])
  }

  /** A finite run of the drone from its first boot: `ws[i + 1]` is `ws[i]` after `acts[i]`. */
  predicate Behaviour(ws: seq<World>, acts: seq<Action>) {
    && |ws| == |acts| + 1
    && ws[0] == INIT
    && (forall i :: 0 <= i < |acts| ==> Enabled(ws[i], acts[i]) && ws[i + 1] == After(ws[i], acts[i]))
  }

  /** The world after a sequence of actions, if each of them is possible. */
  function Perform(w: World, acts: seq<Action>): Option<World>
    decreases |acts|
  {
    if acts == [] then Some(w)
    else if !Enabled(w, acts[0]) then None
    else Perform(After(w, acts[0]), acts[1..])
  }

  /** The backend table as the proxy and the status loop query it. */
  function BackendTable(w: World): map<BackendId, BackendState> {
    map id | id in w.locals && w.locals[id].row.Some? :: w.locals[id].row.value
  }
}
