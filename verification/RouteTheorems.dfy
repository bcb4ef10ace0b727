/** What the proxy and the status loop can read from the database, over every behaviour. */
module RouteTheorems {
  import opened Lifecycle
  import opened Database
  import opened Protocol
  import opened ProtocolInvariants
  import opened ProtocolTheorems

  predicate HasRoute(rows: set<Row>, id: BackendId) {
    exists row :: row in rows && row.subdomain == id && row.backend == id
  }

  /** The backend is stored as Ready, or its run has written its route and is on the way there. */
  predicate NeedsRoute(l: Local) {
    || l.row == Some(Ready)
    || (l.run.Some? && l.run.value.phase.Attempt? && l.run.value.phase.point.Routed?)
    || (l.run.Some? && l.run.value.phase == Writing(false) && l.run.value.state == Ready)
  }

  predicate RoutesKept(w: World) {
    && UniqueRows(w.routes)
    && (forall row :: row in w.routes ==> row.backend == row.subdomain && row.subdomain in w.locals)
    && (forall id :: id in w.locals && NeedsRoute(w.locals[id]) ==> HasRoute(w.routes, id))
  }

  /** The address that `id` is about to claim is not the route of another backend that needs it. */
  predicate Exclusive(w: World, id: BackendId)
    requires id in w.locals && Enabled(w, WritesRoute(id, 0))
  {
    forall row :: row in w.routes && row.address == w.locals[id].run.value.phase.point.addr && row.subdomain != id ==>
      row.subdomain in w.locals ==> !NeedsRoute(w.locals[row.subdomain])
  }

  /** Only an attempt whose route is inserted returns Ready. */
  lemma ReadyIsRouted(l: Local, step: StepAction, stream: Stream)
    requires LocalEnabled(l, Steps(step), stream)
    ensures NeedsRoute(LocalAfter(l, Steps(step), stream)) ==> NeedsRoute(l)
  {
  }

  lemma NeedIsInherited(l: Local, act: LocalAction, stream: Stream)
    requires LocalEnabled(l, act, stream) && Disciplined(l)
    ensures NeedsRoute(LocalAfter(l, act, stream)) ==> NeedsRoute(l)
  {
    if External(act) {
      ExternalFrame(l, act, stream);
    } else if act.Steps? {
      ReadyIsRouted(l, act.step, stream);
    } else {
      RowChange(l, act, stream);
    }
  }

  /** Apart from a route insertion, no action creates a need for a route or touches the table. */
  lemma OnlyRoutingNeeds(w: World, a: Action, id: BackendId)
    requires Enabled(w, a) && Invariant(w) && !a.WritesRoute? && id in After(w, a).locals
    requires NeedsRoute(After(w, a).locals[id])
    ensures id in w.locals && NeedsRoute(w.locals[id])
  {
    if a.Acts? && a.id == id {
      NeedIsInherited(w.locals[id], a.act, w.stream);
    }
  }

  lemma InsertKeepsRoutes(w: World, id: BackendId, now: int)
    requires Enabled(w, WritesRoute(id, now)) && RoutesKept(w) && Exclusive(w, id)
    ensures RoutesKept(After(w, WritesRoute(id, now)))
  {
  }

  lemma ClashLosesRoute(w: World, id: BackendId, now: int)
    requires Enabled(w, WritesRoute(id, now)) && RoutesKept(w) && !Exclusive(w, id)
    ensures !RoutesKept(After(w, WritesRoute(id, now)))
  {
    var u := After(w, WritesRoute(id, now));
    var addr := w.locals[id].run.value.phase.point.addr;
    var lost :| lost in w.routes && lost.address == addr && lost.subdomain != id
                && lost.subdomain in w.locals && NeedsRoute(w.locals[lost.subdomain]);
    assert NeedsRoute(u.locals[lost.subdomain]);
    forall row | row in u.routes ensures row.subdomain != lost.subdomain {
      assert row in w.routes && row.subdomain == lost.subdomain ==> row == lost;
    }
  }

  /** Every action keeps each needed route in the table, except exactly a route insertion that
      claims the address of another backend while that backend still needs it. */
  lemma RoutesKeptExactly(w: World, a: Action)
    requires Enabled(w, a) && Invariant(w) && RoutesKept(w)
    ensures RoutesKept(After(w, a)) <==> (a.WritesRoute? ==> Exclusive(w, a.id))
  {
    if !a.WritesRoute? {
      forall id | id in After(w, a).locals && NeedsRoute(After(w, a).locals[id]) ensures HasRoute(After(w, a).routes, id) {
        OnlyRoutingNeeds(w, a, id);
      }
    } else if Exclusive(w, a.id) {
      InsertKeepsRoutes(w, a.id, a.now);
    } else {
      ClashLosesRoute(w, a.id, a.now);
    }
  }

  lemma LocalRankStays(l: Local, act: LocalAction, stream: Stream)
    requires LocalEnabled(l, act, stream) && Disciplined(l) && l.row.Some?
    ensures
      var row := LocalAfter(l, act, stream).row;
      && row.Some? && row.value.Rank() >= l.row.value.Rank() && (l.row.value.Terminal() ==> row.value.Terminal())
  {
    RowChange(l, act, stream);
  }

  /** The stored state of a backend never falls in rank, and so stays terminal. */
  lemma RankStays(w: World, a: Action, id: BackendId)
    requires Enabled(w, a) && Invariant(w) && id in w.locals && w.locals[id].row.Some?
    ensures
      var l := After(w, a).locals[id];
      && l.row.Some? && l.row.value.Rank() >= w.locals[id].row.value.Rank()
      && (w.locals[id].row.value.Terminal() ==> l.row.value.Terminal())
  {
    if a.Acts? && a.id == id {
      LocalRankStays(w.locals[id], a.act, w.stream);
    }
  }

  /** No route insertion claims an address that another backend still needs. */
  predicate AddressesExclusive(ws: seq<World>, acts: seq<Action>)
    requires Behaviour(ws, acts)
  {
    forall i :: 0 <= i < |acts| && acts[i].WritesRoute? ==> Exclusive(ws[i], acts[i].id)
  }

  lemma {:induction false} RoutesKeptAlways(ws: seq<World>, acts: seq<Action>, i: nat)
    requires Behaviour(ws, acts) && i < |ws| && AddressesExclusive(ws, acts)
    ensures RoutesKept(ws[i])
  {
    if i > 0 {
      RoutesKeptAlways(ws, acts, i - 1);
      InvariantHolds(ws, acts, i - 1);
      RoutesKeptExactly(ws[i - 1], acts[i - 1]);
    }
  }

  /** Route visibility: the proxy finds a route for a subdomain exactly while the backend of that
      name is stored as Ready. */
  lemma RouteVisibility(ws: seq<World>, acts: seq<Action>, i: nat, id: BackendId)
    requires Behaviour(ws, acts) && i < |ws| && AddressesExclusive(ws, acts)
    ensures ProxyRoute(ws[i].routes, BackendTable(ws[i]), id).Some? <==>
            id in ws[i].locals && ws[i].locals[id].row == Some(Ready)
  {
    RoutesKeptAlways(ws, acts, i);
    var w := ws[i];
    if id in w.locals && w.locals[id].row == Some(Ready) {
      assert NeedsRoute(w.locals[id]);
      var row :| row in w.routes && row.subdomain == id && row.backend == id;
      assert Answers(row, BackendTable(w), id);
    }
  }

  lemma {:induction false} RowsAlwaysUnique(ws: seq<World>, acts: seq<Action>, i: nat)
    requires Behaviour(ws, acts) && i < |ws|
    ensures UniqueRows(ws[i].routes)
  {
    if i > 0 {
      RowsAlwaysUnique(ws, acts, i - 1);
    }
  }

  /** Two subdomains never resolve to one address, whatever addresses the engine hands out. */
  lemma RoutesDistinct(ws: seq<World>, acts: seq<Action>, i: nat, a: string, b: string)
    requires Behaviour(ws, acts) && i < |ws| && a != b
    requires ProxyRoute(ws[i].routes, BackendTable(ws[i]), a).Some?
    requires ProxyRoute(ws[i].routes, BackendTable(ws[i]), b).Some?
    ensures ProxyRoute(ws[i].routes, BackendTable(ws[i]), a) != ProxyRoute(ws[i].routes, BackendTable(ws[i]), b)
  {
    RowsAlwaysUnique(ws, acts, i);
  }

  /** Every route leads to an address that the backend's own container has had. */
  predicate RoutesOwn(w: World) {
    forall row :: row in w.routes ==>
      row.backend == row.subdomain && row.subdomain in w.locals && row.address in w.locals[row.subdomain].origin.addresses
  }

  lemma {:induction false} RoutesOwnAlways(ws: seq<World>, acts: seq<Action>, i: nat)
    requires Behaviour(ws, acts) && i < |ws|
    ensures RoutesOwn(ws[i])
  {
    if i > 0 {
      RoutesOwnAlways(ws, acts, i - 1);
      InvariantHolds(ws, acts, i - 1);
      var w, a := ws[i - 1], acts[i - 1];
      forall row | row in After(w, a).routes
        ensures row.backend == row.subdomain && row.subdomain in After(w, a).locals
        ensures row.address in After(w, a).locals[row.subdomain].origin.addresses
      {
        if row in w.routes {
          LocalKept(w, a, row.subdomain);
        }
      }
    }
  }

  /** The proxy forwards a subdomain only to an address on which the container of the backend of
      that name was started. */
  lemma RouteLeadsHome(ws: seq<World>, acts: seq<Action>, i: nat, id: BackendId, addr: Address)
    requires Behaviour(ws, acts) && i < |ws|
    requires ProxyRoute(ws[i].routes, BackendTable(ws[i]), id) == Some(addr)
    ensures Happened(acts, i, id, EngineStarts(addr))
  {
    RoutesOwnAlways(ws, acts, i);
    OriginIsHistory(ws, acts, i, id);
  }

  // ---- addresses handed out by the engine -------------------------------------------------

  predicate StoredAsTerminal(l: Local) {
    l.row.Some? && l.row.value.Terminal()
  }

  /** If the action starts a container, every other backend that has had its address is stored in a
      terminal state. */
  predicate Releases(w: World, a: Action) {
    a.Acts? && a.act.EngineStarts? ==>
      forall other :: other in w.locals && other != a.id && a.act.addr in w.locals[other].origin.addresses ==>
        StoredAsTerminal(w.locals[other])
  }

  /** The engine hands out an address only once every backend that has had it is stored in a terminal
      state. */
  predicate AddressesReleased(ws: seq<World>, acts: seq<Action>)
    requires Behaviour(ws, acts)
  {
    forall i :: 0 <= i < |acts| ==> Releases(ws[i], acts[i])
  }

  /** Of two backends that have had the same address, one is stored in a terminal state. */
  predicate Apart(w: World, id: BackendId, other: BackendId) {
    id in w.locals && other in w.locals && id != other ==>
      || StoredAsTerminal(w.locals[id]) || StoredAsTerminal(w.locals[other])
      || w.locals[id].origin.addresses !! w.locals[other].origin.addresses
  }

  lemma ApartStep(w: World, a: Action, id: BackendId, other: BackendId)
    requires Enabled(w, a) && Invariant(w) && Releases(w, a) && Apart(w, id, other)
    ensures Apart(After(w, a), id, other)
  {
    if id in After(w, a).locals && other in After(w, a).locals {
      OriginFrame(w, a, id);
      OriginFrame(w, a, other);
      if id in w.locals && StoredAsTerminal(w.locals[id]) {
        RankStays(w, a, id);
      }
      if other in w.locals && StoredAsTerminal(w.locals[other]) {
        RankStays(w, a, other);
      }
    }
  }

  lemma {:induction false} ApartAlways(ws: seq<World>, acts: seq<Action>, i: nat, id: BackendId, other: BackendId)
    requires Behaviour(ws, acts) && AddressesReleased(ws, acts) && i < |ws|
    ensures Apart(ws[i], id, other)
  {
    if i > 0 {
      ApartAlways(ws, acts, i - 1, id, other);
      InvariantHolds(ws, acts, i - 1);
      ApartStep(ws[i - 1], acts[i - 1], id, other);
    }
  }

  lemma TerminalNeedsNoRoute(l: Local)
    requires Sound(l) && StoredAsTerminal(l)
    ensures !NeedsRoute(l) && !(l.run.Some? && l.run.value.state == Starting)
  {
  }

  lemma ClaimIsExclusive(ws: seq<World>, acts: seq<Action>, i: nat)
    requires Behaviour(ws, acts) && AddressesReleased(ws, acts) && i < |acts| && acts[i].WritesRoute?
    ensures Exclusive(ws[i], acts[i].id)
  {
    var w, id := ws[i], acts[i].id;
    InvariantHolds(ws, acts, i);
    RoutesOwnAlways(ws, acts, i);
    forall row | row in w.routes && row.address == w.locals[id].run.value.phase.point.addr && row.subdomain != id
      ensures !NeedsRoute(w.locals[row.subdomain])
    {
      ApartAlways(ws, acts, i, id, row.subdomain);
      assert Grounded(w.locals[id]);
      if StoredAsTerminal(w.locals[id]) {
        TerminalNeedsNoRoute(w.locals[id]);
      } else {
        TerminalNeedsNoRoute(w.locals[row.subdomain]);
      }
    }
  }

  /** An engine that hands out addresses so never makes two backends claim one: then routes are found
      exactly while the backend is stored as Ready. */
  lemma ReleasedIsExclusive(ws: seq<World>, acts: seq<Action>)
    requires Behaviour(ws, acts) && AddressesReleased(ws, acts)
    ensures AddressesExclusive(ws, acts)
  {
    forall i | 0 <= i < |acts| && acts[i].WritesRoute? ensures Exclusive(ws[i], acts[i].id) {
      ClaimIsExclusive(ws, acts, i);
    }
  }

  // ---- a lost route stays lost ------------------------------------------------------------

  /** The backend has been stored as Ready or later, and has no route. */
  predicate Unrouted(w: World, id: BackendId) {
    && id in w.locals && w.locals[id].row.Some? && w.locals[id].row.value.Rank() >= 2
    && forall row :: row in w.routes ==> row.subdomain != id
  }

  /** Routes are inserted in Starting only, and a backend does not go back to that. */
  lemma UnroutedStays(w: World, a: Action, id: BackendId)
    requires Enabled(w, a) && Invariant(w) && Unrouted(w, id)
    ensures Unrouted(After(w, a), id)
  {
    RankStays(w, a, id);
    assert a.WritesRoute? ==> a.id != id;
  }

  lemma {:induction false} UnroutedForGood(ws: seq<World>, acts: seq<Action>, j: nat, k: nat, id: BackendId)
    requires Behaviour(ws, acts) && j <= k < |ws| && Unrouted(ws[j], id)
    ensures Unrouted(ws[k], id)
    decreases k - j
  {
    if j < k {
      InvariantHolds(ws, acts, j);
      UnroutedStays(ws[j], acts[j], id);
      UnroutedForGood(ws, acts, j + 1, k, id);
    }
  }

  /** A history that has moved on from Ready does not come back to it. */
  lemma ReadyIsPassed(early: seq<BackendState>, middle: seq<BackendState>, late: seq<BackendState>)
    requires early <= middle <= late && Ordered(late)
    requires early != [] && early[|early| - 1] == Ready && middle[|middle| - 1] != Ready
    ensures late[|late| - 1] != Ready
  {
    assert late[|early| - 1] == Ready;
    RanksRise(late, |early| - 1, |late| - 1);
  }

  /** A route is found only for a backend stored as Ready, and not for such a backend only if the
      table holds no route for it. */
  lemma RouteNeedsReady(ws: seq<World>, acts: seq<Action>, i: nat, id: BackendId)
    requires Behaviour(ws, acts) && i < |ws|
    ensures ProxyRoute(ws[i].routes, BackendTable(ws[i]), id).Some? ==>
              id in ws[i].locals && ws[i].locals[id].row == Some(Ready)
    ensures ProxyRoute(ws[i].routes, BackendTable(ws[i]), id).None? && id in ws[i].locals && ws[i].locals[id].row == Some(Ready) ==>
              Unrouted(ws[i], id)
  {
    RoutesOwnAlways(ws, acts, i);
    var w := ws[i];
    if row :| row in w.routes && row.subdomain == id {
      assert id in w.locals && w.locals[id].row == Some(Ready) ==> Answers(row, BackendTable(w), id);
    }
  }

  /** Once a backend's route has disappeared it never comes back, whether the backend has left Ready
      or another backend has claimed its address. */
  lemma RouteNeverReturns(ws: seq<World>, acts: seq<Action>, i: nat, j: nat, k: nat, id: BackendId)
    requires Behaviour(ws, acts) && i <= j <= k < |ws|
    requires ProxyRoute(ws[i].routes, BackendTable(ws[i]), id).Some?
    requires ProxyRoute(ws[j].routes, BackendTable(ws[j]), id).None?
    ensures ProxyRoute(ws[k].routes, BackendTable(ws[k]), id).None?
  {
    RouteNeedsReady(ws, acts, i, id);
    RouteNeedsReady(ws, acts, j, id);
    RouteNeedsReady(ws, acts, k, id);
    HistoryGrows(ws, acts, i, j, id);
    HistoryGrows(ws, acts, j, k, id);
    if ws[j].locals[id].row == Some(Ready) {
      UnroutedForGood(ws, acts, j, k, id);
    } else {
      RowIsLatest(ws, acts, i, id);
      RowIsLatest(ws, acts, j, id);
      RowIsLatest(ws, acts, k, id);
      ReadyIsPassed(ws[i].locals[id].written, ws[j].locals[id].written, ws[k].locals[id].written);
    }
  }

  // ---- the tables change by calls of the database -----------------------------------------

  /** The call of the database that an action makes, and its effect on the two tables. */
  function TablesAfter(w: World, a: Action): (map<BackendId, BackendState>, set<Row>)
    requires Enabled(w, a)
  {
    match a
    case Spawns(id, true) => (InsertedRow(BackendTable(w), id), w.routes)
    case Acts(id, Persists(true)) => (UpdatedRow(BackendTable(w), id, w.locals[id].run.value.state), w.routes)
    case WritesRoute(id, now) =>
      (BackendTable(w), InsertOrReplace(w.routes, Row(id, id, w.locals[id].run.value.phase.point.addr, now)))
    case _ => (BackendTable(w), w.routes)
  }

  function RowOf(w: World, id: BackendId): Option<BackendState> {
    if id in w.locals then w.locals[id].row else None
  }

  lemma RowAfter(w: World, a: Action, id: BackendId)
    requires Enabled(w, a)
    ensures RowOf(After(w, a), id) ==
            if a == Spawns(id, true) then Some(Loading)
            else if a == Acts(id, Persists(true)) && RowOf(w, id).Some? then Some(w.locals[id].run.value.state)
            else RowOf(w, id)
  {
    if a.Acts? && a.id == id {
      RowChange(w.locals[id], a.act, w.stream);
    }
  }

  lemma TableIs(v: World, table: map<BackendId, BackendState>)
    requires forall id :: RowOf(v, id) == if id in table then Some(table[id]) else None
    ensures BackendTable(v) == table
  {
    forall id ensures id in BackendTable(v) <==> id in table {
      assert RowOf(v, id) == if id in table then Some(table[id]) else None;
    }
    forall id | id in table ensures BackendTable(v)[id] == table[id] {
      assert RowOf(v, id) == Some(table[id]);
    }
  }

  /** Every action changes the tables by at most one call of the database: an insertion of a fresh
      name, which is never rejected, an update of an existing row or of none, or a route insertion.
      Nothing else, and in particular no restart, touches them. */
  lemma TablesFollowCalls(w: World, a: Action)
    requires Enabled(w, a)
    ensures (BackendTable(After(w, a)), After(w, a).routes) == TablesAfter(w, a)
    ensures a.Spawns? ==> a.id !in BackendTable(w)
  {
    var table := TablesAfter(w, a).0;
    forall id ensures RowOf(After(w, a), id) == if id in table then Some(table[id]) else None {
      RowAfter(w, a, id);
    }
    TableIs(After(w, a), table);
  }

  // ---- the running-backend count ----------------------------------------------------------

  /** The rows in state Loading, Starting or Ready. */
  function RunningIds(w: World): set<BackendId> {
    set id | id in w.locals && w.locals[id].row.Some? && w.locals[id].row.value in {Loading, Starting, Ready}
  }

  /** `running_backends` */
  function RunningBackends(w: World): nat {
    |RunningIds(w)|
  }

  function Inserted(w: World): set<BackendId> {
    set id | id in w.locals && w.locals[id].written != []
  }

  /** Backends with a terminal state anywhere in their database history. */
  function Finished(w: World): set<BackendId> {
    set id | id in w.locals && exists m :: 0 <= m < |w.locals[id].written| && w.locals[id].written[m].Terminal()
  }

  lemma FinishedIsStored(l: Local)
    requires Disciplined(l) && l.written != []
    ensures (exists m :: 0 <= m < |l.written| && l.written[m].Terminal()) <==>
            !(l.row.value in {Loading, Starting, Ready})
  {
    var n := |l.written| - 1;
    if m :| 0 <= m < n && l.written[m].Terminal() {
      RanksRise(l.written, m, n);
    }
  }

  lemma RunningIsUnfinished(w: World)
    requires Invariant(w)
    ensures RunningIds(w) == Inserted(w) - Finished(w) && Finished(w) <= Inserted(w)
  {
    forall id | id in Inserted(w)
      ensures id in RunningIds(w) <==> id !in Finished(w)
    {
      FinishedIsStored(w.locals[id]);
    }
  }

  /** Conservation: the running count is the number of backends inserted minus those that ever
      reached a terminal state, at every point of every behaviour; if no write failed, that is all
      backends ever spawned minus those. */
  lemma RunningConserved(ws: seq<World>, acts: seq<Action>, i: nat)
    requires Behaviour(ws, acts) && i < |ws|
    ensures RunningBackends(ws[i]) == |Inserted(ws[i])| - |Finished(ws[i])|
    ensures (forall id :: id in ws[i].locals ==> ws[i].locals[id].clean) ==>
              RunningBackends(ws[i]) == |ws[i].locals| - |Finished(ws[i])|
  {
    InvariantHolds(ws, acts, i);
    RunningIsUnfinished(ws[i]);
    if forall id :: id in ws[i].locals ==> ws[i].locals[id].clean {
      assert Inserted(ws[i]) == ws[i].locals.Keys;
    }
  }

  /** Restarting the agent does not change the count. */
  lemma RestartKeepsCount(w: World, a: Action)
    requires Enabled(w, a) && (a == Crashes || a.Boots? || a == Resumes)
    ensures RunningBackends(After(w, a)) == RunningBackends(w)
  {
    assert RunningIds(After(w, a)) == RunningIds(w);
  }
}
