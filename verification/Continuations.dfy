/** What can still happen from a given point: sequences of actions that are possible there. */
module Continuations {
  import opened Lifecycle
  import opened Protocol
  import opened ProtocolInvariants

  /** Actions on one backend in sequence, or `None` if one of them is not possible. */
  function Play(l: Local, plan: seq<LocalAction>, stream: Stream): Option<Local>
    decreases |plan|
  {
    if plan == [] then Some(l)
    else if !LocalEnabled(l, plan[0], stream) then None
    else Play(LocalAfter(l, plan[0], stream), plan[1..], stream)
  }

  lemma PlayOne(l: Local, act: LocalAction, rest: seq<LocalAction>, stream: Stream)
    requires LocalEnabled(l, act, stream)
    ensures Play(l, [act] + rest, stream) == Play(LocalAfter(l, act, stream), rest, stream)
  {
    assert ([act] + rest)[1..] == rest;
  }

  lemma {:induction false} PlayConcat(l: Local, plan: seq<LocalAction>, rest: seq<LocalAction>, stream: Stream)
    requires Play(l, plan, stream).Some?
    ensures Play(l, plan + rest, stream) == Play(Play(l, plan, stream).value, rest, stream)
    decreases |plan|
  {
    if plan == [] {
      assert plan + rest == rest;
    } else {
      assert (plan + rest)[1..] == plan[1..] + rest;
      PlayConcat(LocalAfter(l, plan[0], stream), plan[1..], rest, stream);
    }
  }

  /** The same actions as actions of the drone. */
  function About(id: BackendId, plan: seq<LocalAction>): seq<Action> {
    seq(|plan|, i requires 0 <= i < |plan| => Acts(id, plan[i]))
  }

  /** What a backend can play on its own, it can play while no other run holds the thread and, where
      that matters, no kill request for another backend locks its shard. */
  lemma {:induction false} PlayPerforms(w: World, id: BackendId, plan: seq<LocalAction>)
    requires id in w.locals && FreeFor(w, id) && Play(w.locals[id], plan, w.stream).Some?
    requires Enters in plan || Leaves in plan ==> !Barred(w, id)
    ensures Perform(w, About(id, plan)) == Some(w.(locals := w.locals[id := Play(w.locals[id], plan, w.stream).value]))
    decreases |plan|
  {
    if plan == [] {
      assert w.locals[id := w.locals[id]] == w.locals;
    } else {
      var next := After(w, Acts(id, plan[0]));
      assert About(id, plan)[1..] == About(id, plan[1..]);
      PlayPerforms(next, id, plan[1..]);
      var end := Play(w.locals[id], plan, w.stream).value;
      assert next.locals[id := end] == w.locals[id := end];
    }
  }

  lemma {:induction false} PerformConcat(w: World, acts: seq<Action>, more: seq<Action>)
    requires Perform(w, acts).Some?
    ensures Perform(w, acts + more) == Perform(Perform(w, acts).value, more)
    decreases |acts|
  {
    if acts == [] {
      assert acts + more == more;
    } else {
      assert (acts + more)[1..] == acts[1..] + more;
      PerformConcat(After(w, acts[0]), acts[1..], more);
    }
  }

  /** Whatever happens, the invariant is kept and no database write is taken back. */
  lemma {:induction false} PerformKeeps(w: World, acts: seq<Action>, id: BackendId)
    requires Invariant(w) && id in w.locals && Perform(w, acts).Some?
    ensures
      var v := Perform(w, acts).value;
      Invariant(v) && id in v.locals && w.locals[id].written <= v.locals[id].written
    decreases |acts|
  {
    if acts != [] {
      InvariantKept(w, acts[0]);
      PerformKeeps(After(w, acts[0]), acts[1..], id);
    }
  }

  // ---- reachable worlds -------------------------------------------------------------------

  /** Some behaviour of the drone ends in `w`. */
  ghost predicate Reachable(w: World) {
    exists ws: seq<World>, acts: seq<Action> :: Behaviour(ws, acts) && ws[|acts|] == w
  }

  lemma NextReachable(w: World, a: Action)
    requires Reachable(w) && Enabled(w, a)
    ensures Reachable(After(w, a))
  {
    var ws: seq<World>, acts: seq<Action> :| Behaviour(ws, acts) && ws[|acts|] == w;
    assert Behaviour(ws + [After(w, a)], acts + [a]);
  }

  lemma {:induction false} PerformReachable(w: World, acts: seq<Action>)
    requires Reachable(w) && Perform(w, acts).Some?
    ensures Reachable(Perform(w, acts).value)
    decreases |acts|
  {
    if acts != [] {
      NextReachable(w, acts[0]);
      PerformReachable(After(w, acts[0]), acts[1..]);
    }
  }

  /** The world in which only `id` has changed. */
  function With(w: World, id: BackendId, l: Local): World {
    w.(locals := w.locals[id := l])
  }

  /** Whatever a backend can play is reachable. */
  lemma PlayReachable(w: World, id: BackendId, plan: seq<LocalAction>)
    requires Reachable(w) && id in w.locals && FreeFor(w, id) && Play(w.locals[id], plan, w.stream).Some?
    requires Enters in plan || Leaves in plan ==> !Barred(w, id)
    ensures Reachable(With(w, id, Play(w.locals[id], plan, w.stream).value))
  {
    PlayPerforms(w, id, plan);
    PerformReachable(w, About(id, plan));
  }
}
