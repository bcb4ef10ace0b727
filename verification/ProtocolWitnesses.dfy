/** Behaviours that the protocol does have, shown by example: the limits of the theorems. */
module ProtocolWitnesses {
  import opened Lifecycle
  import opened Database
  import opened Protocol
  import opened Continuations
  import opened ThreadTheorems
  import opened WakeUpTheorems

  // ---- stages of a backend's life ---------------------------------------------------------

  /** A drone that has just started to serve, without a backend. */
  const EMPTY := World(Serving, Unconnected, map[], {}, map[])

  lemma EmptyReachable()
    ensures Reachable(EMPTY)
  {
    assert Behaviour([INIT], []);
    var up := After(INIT, Boots(map[]));
    NextReachable(INIT, Boots(map[]));
    NextReachable(up, Resumes);
    assert After(up, Resumes) == EMPTY;
  }

  lemma SpawnReachable(w: World, id: BackendId)
    requires Reachable(w) && w.mode == Serving && id !in w.locals && Free(w)
    ensures Reachable(With(w, id, Fresh(true)))
  {
    NextReachable(w, Spawns(id, true));
  }

  /** No kill request waits. */
  predicate Quiet(l: Local) {
    l.run.Some? && l.run.value.channel == Empty && l.run.value.parked == 0 && l.undelivered == 0 && l.row.Some?
  }

  /** The run is about to attempt a step in `state`, which is stored; nothing else is going on. */
  predicate AtHead(l: Local, state: BackendState, written: seq<BackendState>) {
    && Quiet(l) && l.row == Some(state) && l.listener && l.written == written
    && l.run.value.phase == Attempt(Begin) && l.run.value.state == state
  }

  /** The run has chosen `state` over what is stored; nothing else is going on. */
  predicate Chosen(l: Local, state: BackendState, written: seq<BackendState>) {
    && Quiet(l) && l.listener && l.written == written
    && l.run.value.phase == Writing(false) && l.run.value.state == state
  }

  const ENTERS := [Announces(true), Enters]

  /** A spawned backend begins its loop. */
  lemma EnterReachable(w: World, id: BackendId) returns (l: Local)
    requires Reachable(w) && id in w.locals && w.locals[id] == Fresh(true) && FreeFor(w, id) && !Barred(w, id)
    ensures Reachable(With(w, id, l)) && AtHead(l, Loading, [Loading]) && l.container == Absent
  {
    var begun := LocalAfter(Fresh(true), Announces(true), w.stream);
    PlayOne(Fresh(true), Announces(true), [Enters], w.stream);
    PlayOne(begun, Enters, [], w.stream);
    assert [Announces(true)] + [Enters] == ENTERS;
    l := LocalAfter(begun, Enters, w.stream);
    PlayReachable(w, id, ENTERS);
  }

  const STORES := [Persists(true), Publishes(true)]

  /** A chosen state is stored and published. */
  lemma StoreReachable(w: World, id: BackendId, state: BackendState, written: seq<BackendState>) returns (l: Local)
    requires Reachable(w) && id in w.locals && Chosen(w.locals[id], state, written) && FreeFor(w, id)
    ensures Reachable(With(w, id, l)) && AtHead(l, state, written + [state]) && l.container == w.locals[id].container
  {
    var stored := LocalAfter(w.locals[id], Persists(true), w.stream);
    PlayOne(w.locals[id], Persists(true), [Publishes(true)], w.stream);
    PlayOne(stored, Publishes(true), [], w.stream);
    assert [Persists(true)] + [Publishes(true)] == STORES;
    l := LocalAfter(stored, Publishes(true), w.stream);
    PlayReachable(w, id, STORES);
  }

  /** The engine starts the container, and the load returns. */
  lemma LoadReachable(w: World, id: BackendId, addr: Address) returns (l: Local)
    requires Reachable(w) && id in w.locals && AtHead(w.locals[id], Loading, [Loading]) && FreeFor(w, id)
    requires w.locals[id].container == Absent
    ensures Reachable(With(w, id, l)) && Chosen(l, Starting, [Loading]) && l.container == Live(addr)
  {
    var plan := [EngineStarts(addr), Steps(LoadReturns(true))];
    var started := LocalAfter(w.locals[id], EngineStarts(addr), w.stream);
    PlayOne(w.locals[id], EngineStarts(addr), [Steps(LoadReturns(true))], w.stream);
    PlayOne(started, Steps(LoadReturns(true)), [], w.stream);
    assert [EngineStarts(addr)] + [Steps(LoadReturns(true))] == plan;
    l := LocalAfter(started, Steps(LoadReturns(true)), w.stream);
    PlayReachable(w, id, plan);
  }

  lemma SameWith(w: World, id: BackendId, l: Local, m: Local)
    ensures With(With(w, id, l), id, m) == With(w, id, m)
  {
    assert w.locals[id := l][id := m] == w.locals[id := m];
  }

  /** A new backend gets as far as Starting. */
  lemma StartingReachable(w: World, id: BackendId, addr: Address) returns (l: Local)
    requires Reachable(w) && w.mode == Serving && id !in w.locals && Free(w) && !Barred(With(w, id, Fresh(true)), id)
    ensures Reachable(With(w, id, l)) && AtHead(l, Starting, [Loading, Starting]) && l.container == Live(addr)
  {
    SpawnReachable(w, id);
    var entered := EnterReachable(With(w, id, Fresh(true)), id);
    SameWith(w, id, Fresh(true), entered);
    var loaded := LoadReachable(With(w, id, entered), id, addr);
    SameWith(w, id, entered, loaded);
    l := StoreReachable(With(w, id, loaded), id, Starting, [Loading]);
    SameWith(w, id, loaded, l);
    assert [Loading] + [Starting] == [Loading, Starting];
  }

  /** The only backend of a drone is Starting on a live container. */
  lemma OneStarting(id: BackendId) returns (w: World)
    ensures Reachable(w) && w.mode == Serving && w.stream == Unconnected && w.locals.Keys == {id}
    ensures AtHead(w.locals[id], Starting, [Loading, Starting]) && w.locals[id].container.Live?
  {
    EmptyReachable();
    var l := StartingReachable(EMPTY, id, "a");
    w := With(EMPTY, id, l);
  }

  // ---- wake-ups ---------------------------------------------------------------------------

  const DIES_UNSEEN := [Steps(StatusReads), EngineDies(None)]

  /** The container dies while its status is on the way. */
  lemma DiesUnseen(l: Local, stream: Stream)
    requires AtHead(l, Starting, l.written) && l.container.Live?
    ensures
      var end := Play(l, DIES_UNSEEN, stream);
      end.Some? && Dozing(end.value) && (stream != Connected ==> Asleep(end.value))
  {
    var asked := LocalAfter(l, Steps(StatusReads), stream);
    PlayOne(l, Steps(StatusReads), [EngineDies(None)], stream);
    PlayOne(asked, EngineDies(None), [], stream);
  }

  /** Without the event stream a wake-up is lost: the attempt will wait for a port that does not
      open. */
  lemma WakeUpCanBeLost(id: BackendId)
    ensures exists w :: Reachable(w) && id in w.locals && Asleep(w.locals[id])
  {
    var w := OneStarting(id);
    DiesUnseen(w.locals[id], w.stream);
    PlayReachable(w, id, DIES_UNSEEN);
    assert Asleep(With(w, id, Play(w.locals[id], DIES_UNSEEN, w.stream).value).locals[id]);
  }

  /** It is also lost if the stream was connected at the death and ends before the event is read. */
  lemma WakeUpCanBeCutOff(id: BackendId)
    ensures exists w :: Reachable(w) && w.stream == Ended && id in w.locals && Asleep(w.locals[id])
  {
    var w := OneStarting(id);
    NextReachable(w, StreamConnects);
    var v := After(w, StreamConnects);
    DiesUnseen(v.locals[id], v.stream);
    PlayReachable(v, id, DIES_UNSEEN);
    var dead := With(v, id, Play(v.locals[id], DIES_UNSEEN, v.stream).value);
    NextReachable(dead, StreamEnds);
    assert Asleep(After(dead, StreamEnds).locals[id]);
  }

  // ---- runs that cannot go on -------------------------------------------------------------

  const KILLS := [KillArrives, KillArrives]

  /** Two kill requests arrive during a load: one is queued, one waits. */
  lemma KillsLock(l: Local, stream: Stream)
    requires AtHead(l, Loading, [Loading])
    ensures
      var end := Play(l, KILLS, stream);
      && end.Some? && end.value.row.Some? && end.value.run.Some? && Locked(end.value.run.value)
      && end.value.run.value.phase == Attempt(Begin) && end.value.run.value.state == Loading
  {
    var queued := LocalAfter(l, KillArrives, stream);
    PlayOne(l, KillArrives, [KillArrives], stream);
    PlayOne(queued, KillArrives, [], stream);
  }

  const FAILS_TO_LOAD := [Steps(LoadReturns(false)), Persists(true), Publishes(true)]

  /** A load that fails ends the run. */
  lemma FailsToLoad(l: Local, stream: Stream)
    requires l.row.Some? && l.run.Some? && l.run.value.phase == Attempt(Begin) && l.run.value.state == Loading
    ensures
      var end := Play(l, FAILS_TO_LOAD, stream);
      && end.Some? && Departing(end.value)
      && end.value.run.value.channel == l.run.value.channel && end.value.run.value.parked == l.run.value.parked
  {
    var failed := LocalAfter(l, Steps(LoadReturns(false)), stream);
    var stored := LocalAfter(failed, Persists(true), stream);
    PlayOne(l, Steps(LoadReturns(false)), [Persists(true), Publishes(true)], stream);
    PlayOne(failed, Persists(true), [Publishes(true)], stream);
    PlayOne(stored, Publishes(true), [], stream);
  }

  /** A new backend that is loading. */
  lemma LoadingReachable(w: World, id: BackendId) returns (l: Local)
    requires Reachable(w) && w.mode == Serving && id !in w.locals && Free(w) && !Barred(With(w, id, Fresh(true)), id)
    ensures Reachable(With(w, id, l)) && AtHead(l, Loading, [Loading])
  {
    SpawnReachable(w, id);
    l := EnterReachable(With(w, id, Fresh(true)), id);
    SameWith(w, id, Fresh(true), l);
  }

  /** Two kill requests during a load that fails: the second one still waits when the run leaves. */
  lemma ExitCanBlock(id: BackendId)
    ensures exists w :: Reachable(w) && id in w.locals && Departing(w.locals[id]) && Stuck(w, id)
  {
    EmptyReachable();
    var l := LoadingReachable(EMPTY, id);
    var w := With(EMPTY, id, l);
    KillsLock(l, w.stream);
    PlayReachable(w, id, KILLS);
    var v := With(w, id, Play(l, KILLS, w.stream).value);
    FailsToLoad(v.locals[id], v.stream);
    PlayReachable(v, id, FAILS_TO_LOAD);
    assert Stuck(With(v, id, Play(v.locals[id], FAILS_TO_LOAD, v.stream).value), id);
  }

  /** Two backends in one shard are loading, and a kill request for `b` waits. */
  lemma LockedNeighbour(a: BackendId, b: BackendId) returns (w: World)
    requires a != b
    ensures Reachable(w) && w.mode == Serving && w.shards == map[] && w.locals.Keys == {a, b}
    ensures AtHead(w.locals[a], Loading, [Loading])
    ensures w.locals[b].run.Some? && Locked(w.locals[b].run.value) && !Holding(w.locals[b])
  {
    EmptyReachable();
    var l := LoadingReachable(EMPTY, a);
    var one := With(EMPTY, a, l);
    var m := LoadingReachable(one, b);
    var two := With(one, b, m);
    KillsLock(m, two.stream);
    PlayReachable(two, b, KILLS);
    w := With(two, b, Play(m, KILLS, two.stream).value);
  }

  /** A kill request that waits for one backend blocks the exit of another one in its shard. */
  lemma ExitCanBlockAcross(a: BackendId, b: BackendId)
    requires a != b
    ensures exists w :: && Reachable(w) && a in w.locals && Departing(w.locals[a]) && !Locked(w.locals[a].run.value)
                        && Stuck(w, a)
  {
    var w := LockedNeighbour(a, b);
    FailsToLoad(w.locals[a], w.stream);
    PlayReachable(w, a, FAILS_TO_LOAD);
    var v := With(w, a, Play(w.locals[a], FAILS_TO_LOAD, w.stream).value);
    assert ShardOf(v, b) == ShardOf(v, a) && Locked(v.locals[b].run.value);
    assert Stuck(v, a);
  }

  /** And the start of a third one. */
  lemma EntryCanBlock(a: BackendId, b: BackendId, c: BackendId)
    requires a != b && c != a && c != b
    ensures exists w :: Reachable(w) && c in w.locals && Holding(w.locals[c]) && !Departing(w.locals[c]) && Stuck(w, c)
  {
    var w := LockedNeighbour(a, b);
    SpawnReachable(w, c);
    var v := With(w, c, Fresh(true));
    NextReachable(v, Acts(c, Announces(true)));
    var u := After(v, Acts(c, Announces(true)));
    assert ShardOf(u, b) == ShardOf(u, c) && Locked(u.locals[b].run.value);
    assert Stuck(u, c);
  }

  // ---- terminal states and abandoned backends ---------------------------------------------

  const FAILS_TO_START := [EngineDies(None), Steps(StatusReads), Steps(StatusReturns(true))]

  lemma FailsToStart(l: Local, stream: Stream)
    requires AtHead(l, Starting, l.written) && l.container.Live? && stream != Connected
    ensures
      var end := Play(l, FAILS_TO_START, stream);
      end.Some? && Chosen(end.value, ErrorStarting, l.written)
  {
    var dead := LocalAfter(l, EngineDies(None), stream);
    var asked := LocalAfter(dead, Steps(StatusReads), stream);
    PlayOne(l, EngineDies(None), [Steps(StatusReads), Steps(StatusReturns(true))], stream);
    PlayOne(dead, Steps(StatusReads), [Steps(StatusReturns(true))], stream);
    PlayOne(asked, Steps(StatusReturns(true)), [], stream);
  }

  /** The container has died when the run asks for it, so the backend fails to start. */
  lemma StartCanFail(id: BackendId) returns (w: World)
    ensures Reachable(w) && w.locals.Keys == {id}
    ensures AtHead(w.locals[id], ErrorStarting, [Loading, Starting, ErrorStarting])
  {
    var v := OneStarting(id);
    FailsToStart(v.locals[id], v.stream);
    PlayReachable(v, id, FAILS_TO_START);
    var failed := Play(v.locals[id], FAILS_TO_START, v.stream).value;
    var l := StoreReachable(With(v, id, failed), id, ErrorStarting, [Loading, Starting]);
    w := With(With(v, id, failed), id, l);
    assert [Loading, Starting] + [ErrorStarting] == [Loading, Starting, ErrorStarting];
  }

  const KILL := [KillArrives, TakesSignal, Persists(true)]

  lemma KillIsWritten(l: Local, state: BackendState, stream: Stream)
    requires AtHead(l, state, l.written) && state != Swept
    ensures
      var end := Play(l, KILL, stream);
      end.Some? && end.value.written == l.written + [Terminated]
  {
    var killed := LocalAfter(l, KillArrives, stream);
    var taken := LocalAfter(killed, TakesSignal, stream);
    PlayOne(l, KillArrives, [TakesSignal, Persists(true)], stream);
    PlayOne(killed, TakesSignal, [Persists(true)], stream);
    PlayOne(taken, Persists(true), [], stream);
  }

  /** A terminal state is overwritten: a kill request arrives while the container is being stopped. */
  lemma TerminalCanChange(id: BackendId)
    ensures exists w :: Reachable(w) && id in w.locals && w.locals[id].written == [Loading, Starting, ErrorStarting, Terminated]
  {
    var w := StartCanFail(id);
    KillIsWritten(w.locals[id], ErrorStarting, w.stream);
    PlayReachable(w, id, KILL);
    assert [Loading, Starting, ErrorStarting] + [Terminated] == [Loading, Starting, ErrorStarting, Terminated];
    assert id in With(w, id, Play(w.locals[id], KILL, w.stream).value).locals;
  }

  /** A failed status request in Starting ends the run; the container is up, the row says Starting
      and nobody looks after the backend. */
  lemma RunningCanBeAbandoned(id: BackendId)
    ensures exists w :: && Reachable(w) && id in w.locals && w.locals[id].row == Some(Starting)
                        && w.locals[id].container.Live? && w.locals[id].run.None?
  {
    var w := OneStarting(id);
    var plan := [Steps(StatusReturns(false)), Leaves];
    var failed := LocalAfter(w.locals[id], Steps(StatusReturns(false)), w.stream);
    PlayOne(w.locals[id], Steps(StatusReturns(false)), [Leaves], w.stream);
    PlayOne(failed, Leaves, [], w.stream);
    assert [Steps(StatusReturns(false))] + [Leaves] == plan;
    PlayReachable(w, id, plan);
    assert With(w, id, Play(w.locals[id], plan, w.stream).value).locals[id].run.None?;
  }

  // ---- routes -----------------------------------------------------------------------------

  /** The run is about to insert its route. */
  predicate AtRoute(l: Local, addr: Address) {
    && Quiet(l) && l.row == Some(Starting) && l.listener && l.written == [Loading, Starting]
    && l.run.value.phase == Attempt(Routing(addr)) && l.run.value.state == Starting && l.container == Live(addr)
  }

  const FINDS_PORT := [Steps(StatusReads), Steps(StatusReturns(true)), Steps(PortReturns(true))]

  lemma FindsPort(l: Local, addr: Address, stream: Stream)
    requires AtHead(l, Starting, [Loading, Starting]) && l.container == Live(addr)
    ensures
      var end := Play(l, FINDS_PORT, stream);
      end.Some? && AtRoute(end.value, addr)
  {
    var asked := LocalAfter(l, Steps(StatusReads), stream);
    var told := LocalAfter(asked, Steps(StatusReturns(true)), stream);
    PlayOne(l, Steps(StatusReads), [Steps(StatusReturns(true)), Steps(PortReturns(true))], stream);
    PlayOne(asked, Steps(StatusReturns(true)), [Steps(PortReturns(true))], stream);
    PlayOne(told, Steps(PortReturns(true)), [], stream);
  }

  /** The route has been inserted. */
  predicate AtRouted(l: Local, addr: Address) {
    && Quiet(l) && l.listener && l.written == [Loading, Starting]
    && l.run.value.phase == Attempt(Routed(addr)) && l.run.value.state == Starting && l.container == Live(addr)
  }

  lemma InsertReachable(w: World, id: BackendId, addr: Address) returns (l: Local)
    requires Reachable(w) && id in w.locals && AtRoute(w.locals[id], addr)
    ensures Reachable(With(w, id, l).(routes := InsertOrReplace(w.routes, Row(id, id, addr, 0)))) && AtRouted(l, addr)
  {
    NextReachable(w, WritesRoute(id, 0));
    l := After(w, WritesRoute(id, 0)).locals[id];
  }

  /** A new backend gets as far as its route. */
  lemma RouteReachable(w: World, id: BackendId, addr: Address) returns (l: Local)
    requires Reachable(w) && w.mode == Serving && id !in w.locals && Free(w) && !Barred(With(w, id, Fresh(true)), id)
    ensures Reachable(With(w, id, l).(routes := InsertOrReplace(w.routes, Row(id, id, addr, 0)))) && AtRouted(l, addr)
  {
    var starting := StartingReachable(w, id, addr);
    var v := With(w, id, starting);
    FindsPort(starting, addr, v.stream);
    PlayReachable(v, id, FINDS_PORT);
    var routing := Play(starting, FINDS_PORT, v.stream).value;
    SameWith(w, id, starting, routing);
    l := InsertReachable(With(w, id, routing), id, addr);
    SameWith(w, id, routing, l);
  }

  lemma ReadyReachable(w: World, id: BackendId, addr: Address) returns (l: Local)
    requires Reachable(w) && id in w.locals && FreeFor(w, id) && AtRouted(w.locals[id], addr)
    ensures Reachable(With(w, id, l)) && AtHead(l, Ready, [Loading, Starting, Ready]) && l.container == Live(addr)
  {
    var plan := [Steps(RouteReturns(true))];
    PlayOne(w.locals[id], Steps(RouteReturns(true)), [], w.stream);
    PlayReachable(w, id, plan);
    var routed := LocalAfter(w.locals[id], Steps(RouteReturns(true)), w.stream);
    l := StoreReachable(With(w, id, routed), id, Ready, [Loading, Starting]);
    SameWith(w, id, routed, l);
    assert [Loading, Starting] + [Ready] == [Loading, Starting, Ready];
  }

  /** The only backend of a drone is Ready, with its route, and its container has just died. */
  lemma DeadReady(id: BackendId) returns (w: World)
    ensures Reachable(w) && w.mode == Serving && w.locals.Keys == {id} && w.routes == {Row(id, id, "a", 0)}
    ensures w.locals[id].row == Some(Ready) && w.locals[id].container.Dead? && Quiet(w.locals[id]) && !Holding(w.locals[id])
  {
    EmptyReachable();
    var routed := RouteReachable(EMPTY, id, "a");
    var v := With(EMPTY, id, routed).(routes := InsertOrReplace({}, Row(id, id, "a", 0)));
    var ready := ReadyReachable(v, id, "a");
    var u := With(v, id, ready);
    NextReachable(u, Acts(id, EngineDies(None)));
    w := After(u, Acts(id, EngineDies(None)));
  }

  /** A backend that is stored as Ready can lose its route, although no two live containers ever had
      the same address: its container dies, and before it has noticed, another backend is started on
      the address. */
  lemma RouteCanBeLost(a: BackendId, b: BackendId)
    requires a != b
    ensures exists w :: && Reachable(w) && a in w.locals && w.locals[a].row == Some(Ready)
                        && w.locals[a].container.Dead? && ProxyRoute(w.routes, BackendTable(w), a).None?
  {
    var w := DeadReady(a);
    var l := RouteReachable(w, b, "a");
    var v := With(w, b, l).(routes := InsertOrReplace(w.routes, Row(b, b, "a", 0)));
    assert v.locals[a] == w.locals[a];
    assert forall row :: row in v.routes ==> row.subdomain == b;
  }
}
