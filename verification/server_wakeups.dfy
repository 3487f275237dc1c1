/** The server of ServerModel with the wakeup protocol of EventLoopModel underneath:
    each of its loops polls on an eventfd, and each thread that queues a functor on
    another's loop writes to that loop's eventfd before it does anything else. */
module ServerWakeups {
  import opened Basics
  import opened ConnectionModel
  import opened Functors
  import opened ServerModel
  import opened ServerTheorems
  import opened ServerRuns
  import E = EventLoopModel

  datatype System = System(server: Server, events: map<LoopId, E.State>)

  /** A step of the server, where `wake` tells what a poll reports of the eventfd; or
      an action that concerns the protocol of one loop alone. */
  datatype Move = Serve(step: Step, wake: bool) | Local(l: LoopId, action: E.Action)

  // ------------------------------------------------- how a server step moves a loop

  function ThreadOf(a: Step): Tid {
    match a
    case Poll(l, _) => l
    case Dispatch(l, _) => l
    case DispatchAccept(l, _, _, _) => l
    case BeginFunctors(l) => l
    case RunFunctor(l, _, _) => l
    case EndFunctors(l) => l
    case UserCode(l, _, _) => l
    case CheckState(t, _, _) => t
    case PostMessage(t) => t
  }

  predicate OnLoop(a: Step) { !a.CheckState? && !a.PostMessage? }

  /** The functor that a step queues, and on which loop. */
  function Queued(s: Server, a: Step): Option<(LoopId, Functor)>
    requires Enabled(s, a)
  {
    match a
    case Dispatch(l, io) =>
      var item := s.loops[l].pc.active[0];
      if item.c !in s.conns then None
      else
        var e := s.conns[item.c];
        if HandleEvent(e.conn, item.revents, io).ledger.closeRequests <= e.conn.ledger.closeRequests then None
        else if l == s.main then Some((e.loop, Destroy(item.c)))
        else Some((s.main, RemoveInLoop(item.c)))
    case DispatchAccept(_, target, _, _) =>
      if target == s.main then None else Some((target, Establish(s.nextId)))
    case RunFunctor(l, _, _) =>
      var f := s.loops[l].batch[0];
      if f.RemoveInLoop? && f.c in s.conns then Some((s.conns[f.c].loop, Destroy(f.c))) else None
    case PostMessage(t) =>
      var (c, data) := s.flights[t];
      if c in s.conns then Some((s.conns[c].loop, Deliver(c, t, data))) else None
    case _ => None
  }

  /** What a step of its own thread does to a loop, before anything is queued. */
  function OwnMove(lp: Loop, a: Step): Loop {
    match a
    case Poll(_, active) => lp.(pc := Dispatching(active))
    case Dispatch(_, _) => Next(lp)
    case DispatchAccept(_, _, _, _) => Next(lp)
    case BeginFunctors(_) => Loop(Calling, [], lp.pending)
    case RunFunctor(_, _, _) => if lp.batch == [] then lp else lp.(batch := lp.batch[1..])
    case EndFunctors(_) => lp.(pc := Polling)
    case _ => lp
  }

  function Next(lp: Loop): Loop {
    if lp.pc.Dispatching? && lp.pc.active != [] then lp.(pc := Dispatching(lp.pc.active[1..])) else lp
  }

  function LoopAfter(s: Server, a: Step, k: LoopId): Loop
    requires Enabled(s, a) && k in s.loops
  {
    var lp := if OnLoop(a) && ThreadOf(a) == k then OwnMove(s.loops[k], a) else s.loops[k];
    var q := Queued(s, a);
    if q.Some? && q.value.0 == k then lp.(pending := lp.pending + [q.value.1]) else lp
  }

  /** Each server step queues at most one functor, and moves no other thread's loop. */
  lemma LoopsMove(s: Server, a: Step, k: LoopId)
    requires Typed(s) && Enabled(s, a) && k in s.loops
    ensures k in Apply(s, a).loops && Apply(s, a).loops[k] == LoopAfter(s, a, k)
  {
    match a
    case Dispatch(l, io) => DispatchMoves(s, l, io, k);
    case RunFunctor(l, script, w) =>
      var f := s.loops[l].batch[0];
      if f.c in s.conns { match f { case Establish(_) => case RemoveInLoop(_) => case Destroy(_) => case Deliver(_, _, _) => } }
    case _ =>
  }

  lemma DispatchMoves(s: Server, l: LoopId, io: IO, k: LoopId)
    requires Typed(s) && Enabled(s, Dispatch(l, io)) && k in s.loops
    ensures k in Apply(s, Dispatch(l, io)).loops
    ensures Apply(s, Dispatch(l, io)).loops[k] == LoopAfter(s, Dispatch(l, io), k)
  {
    var item := s.loops[l].pc.active[0];
    if item.c in s.conns {
      HandledMoves(SetPc(s, l, Dispatching(s.loops[l].pc.active[1..])), l, item.c,
                   HandleEvent(s.conns[item.c].conn, item.revents, io), k);
    }
  }

  lemma HandledMoves(s: Server, l: LoopId, c: ConnId, conn: Conn, k: LoopId)
    requires c in s.conns && k in s.loops
    ensures var s' := Handled(s, l, c, conn);
      k in s'.loops && s'.loops[k] ==
        if conn.ledger.closeRequests <= s.conns[c].conn.ledger.closeRequests then s.loops[k]
        else if l == s.main && k == s.conns[c].loop then s.loops[k].(pending := s.loops[k].pending + [Destroy(c)])
        else if l != s.main && k == s.main then s.loops[k].(pending := s.loops[k].pending + [RemoveInLoop(c)])
        else s.loops[k]
  {
  }

  // ----------------------------------------------------------------------- the system

  /** The protocol action that goes with a step of the loop's own thread, if any. */
  function OwnAction(a: Step, wake: bool): Option<E.Action> {
    match a
    case Poll(_, _) => Some(E.PollReturns(wake))
    case BeginFunctors(_) => Some(E.Swap)
    case RunFunctor(_, _, _) => Some(E.RunFunctor)
    case EndFunctors(_) => Some(E.EndFunctors)
    case _ => None
  }

  /** Code of the loop runs while channels are handled or functors are called. */
  predicate Runs(ev: E.State, a: Step, wake: bool) {
    var own := OwnAction(a, wake);
    if own.Some? then E.Enabled(ev, own.value) else ev.pc.Dispatching? || ev.pc.Running?
  }

  /** What the step's own thread does to the protocol state of its loop. */
  function Acted(ev: E.State, k: LoopId, a: Step, wake: bool): E.State {
    var own := OwnAction(a, wake);
    if OnLoop(a) && ThreadOf(a) == k && own.Some? && E.Enabled(ev, own.value) then E.Step(ev, own.value) else ev
  }

  /** Queueing by thread `t` on loop `k`: with a wakeup to follow unless it is its own. */
  function QueueAction(k: LoopId, t: Tid, f: Functor): E.Action {
    if t == k then E.OwnPush(f) else E.Push(t, f)
  }

  function EventAfter(s: Server, a: Step, wake: bool, ev: E.State, k: LoopId): E.State
    requires Enabled(s, a)
  {
    var ev1 := Acted(ev, k, a, wake);
    var q := Queued(s, a);
    if q.Some? && q.value.0 == k && E.Enabled(ev1, QueueAction(k, ThreadOf(a), q.value.1))
    then E.Step(ev1, QueueAction(k, ThreadOf(a), q.value.1)) else ev1
  }

  predicate IsLocal(a: E.Action) {
    !a.PollReturns? && !a.OwnPush? && !a.Push? && !a.Swap? && !a.RunFunctor? && !a.EndFunctors?
  }

  /** A thread acts only when it has written to every eventfd it has to. */
  predicate CanMove(y: System, m: Move) {
    match m
    case Serve(a, wake) =>
      && Enabled(y.server, a)
      && (forall k :: k in y.events ==> E.Free(y.events[k], ThreadOf(a)))
      && (OnLoop(a) ==> ThreadOf(a) in y.events && Runs(y.events[ThreadOf(a)], a, wake))
    case Local(l, a) =>
      && l in y.events && IsLocal(a) && E.Enabled(y.events[l], a)
      && (a.EndDispatch? ==> l in y.server.loops && y.server.loops[l].pc == Dispatching([]))
  }

  function Do(y: System, m: Move): System
    requires CanMove(y, m)
  {
    match m
    case Serve(a, wake) =>
      System(Apply(y.server, a),
             map k | k in y.events :: EventAfter(y.server, a, wake, y.events[k], k))
    case Local(l, a) => y.(events := y.events[l := E.Step(y.events[l], a)])
  }

  predicate LegalMoves(y: System, ms: seq<Move>)
    decreases |ms|
  {
    ms != [] ==> CanMove(y, ms[0]) && LegalMoves(Do(y, ms[0]), ms[1..])
  }

  function After(y: System, ms: seq<Move>): System
    requires LegalMoves(y, ms)
    decreases |ms|
  {
    if ms == [] then y else After(Do(y, ms[0]), ms[1..])
  }

  predicate IsBoot(y: System) {
    && IsStart(y.server) && y.events.Keys == y.server.loops.Keys
    && forall k :: k in y.events ==> y.events[k] == E.Initial
  }

  // ------------------------------------------------------------------- the invariant

  /** The two views of one loop agree. */
  predicate Agree(lp: Loop, ev: E.State) {
    && ev.pending == lp.pending && ev.batch == lp.batch
    && match lp.pc
       case Polling => ev.pc.NotLooping? || ev.pc.CheckQuit? || ev.pc.InPoll? || ev.pc.Exited?
       case Dispatching(active) => ev.pc.Dispatching? || (ev.pc.Calling? && active == [])
       case Calling => ev.pc.Running? || ev.pc.Nudging?
  }

  predicate InStep(lp: Loop, ev: E.State) { Agree(lp, ev) && E.Safe(ev, false) }

  /** No thread sends from the loop's own thread through the foreign branch. */
  predicate ForeignFlights(s: Server) {
    forall t :: t in s.flights ==> s.flights[t].0 in s.conns && s.conns[s.flights[t].0].loop != t
  }

  ghost predicate Coupled(y: System) {
    && Inv(y.server) && ForeignFlights(y.server) && y.events.Keys == y.server.loops.Keys
    && forall k :: k in y.events ==> InStep(y.server.loops[k], y.events[k])
  }

  /** The own thread's part of a step keeps the two views together. */
  lemma OwnKeeps(lp: Loop, ev: E.State, k: LoopId, a: Step, wake: bool)
    requires InStep(lp, ev) && OnLoop(a) && ThreadOf(a) == k && Runs(ev, a, wake)
    requires a.Poll? ==> lp.pc == Polling
    requires a.BeginFunctors? ==> lp.pc == Dispatching([])
    requires a.Dispatch? || a.DispatchAccept? ==> lp.pc.Dispatching? && lp.pc.active != []
    requires a.RunFunctor? || a.EndFunctors? ==> lp.pc == Calling
    ensures InStep(OwnMove(lp, a), Acted(ev, k, a, wake))
    ensures var pc := Acted(ev, k, a, wake).pc; a.Dispatch? || a.DispatchAccept? || a.RunFunctor? ==> pc.Dispatching? || pc.Running?
  {
    var own := OwnAction(a, wake);
    if own.Some? { E.StepSafe(ev, own.value, false); }
  }

  /** Queueing keeps them together, whoever queues. */
  lemma QueueKeeps(lp: Loop, ev: E.State, k: LoopId, t: Tid, f: Functor)
    requires InStep(lp, ev) && (if t == k then ev.pc.Dispatching? || ev.pc.Running? else E.Free(ev, t))
    ensures E.Enabled(ev, QueueAction(k, t, f))
    ensures InStep(lp.(pending := lp.pending + [f]), E.Step(ev, QueueAction(k, t, f)))
  {
    E.StepSafe(ev, QueueAction(k, t, f), false);
  }

  lemma ServeKeepsLoop(y: System, a: Step, wake: bool, k: LoopId)
    requires Coupled(y) && CanMove(y, Serve(a, wake)) && k in y.events
    ensures InStep(LoopAfter(y.server, a, k), EventAfter(y.server, a, wake, y.events[k], k))
  {
    var s, t := y.server, ThreadOf(a);
    var lp, ev := s.loops[k], y.events[k];
    var q := Queued(s, a);
    if OnLoop(a) && t == k {
      OwnKeeps(lp, ev, k, a, wake);
      if q.Some? && q.value.0 == k { QueueKeeps(OwnMove(lp, a), Acted(ev, k, a, wake), k, t, q.value.1); }
    } else if q.Some? && q.value.0 == k {
      QueueKeeps(lp, ev, k, t, q.value.1);
    }
  }

  lemma FlightsStayForeign(s: Server, a: Step)
    requires Inv(s) && Enabled(s, a) && ForeignFlights(s)
    ensures ForeignFlights(Apply(s, a))
  {
    StepAdvances(s, a);
    FlightsAfter(s, a);
  }

  lemma FlightsAfter(s: Server, a: Step)
    requires Enabled(s, a)
    ensures Apply(s, a).flights ==
      if a.CheckState? then s.flights[a.t := (a.c, a.data)]
      else if a.PostMessage? then s.flights - {a.t} else s.flights
  {
  }

  lemma ServeKeepsLoops(y: System, a: Step, wake: bool)
    requires Coupled(y) && CanMove(y, Serve(a, wake))
    ensures var y' := Do(y, Serve(a, wake));
      forall k :: k in y'.events ==> k in y'.server.loops && InStep(y'.server.loops[k], y'.events[k])
  {
    var y' := Do(y, Serve(a, wake));
    forall k | k in y'.events ensures k in y'.server.loops && InStep(y'.server.loops[k], y'.events[k]) {
      ServeKeepsAt(y, a, wake, k);
    }
  }

  lemma ServeKeepsKeys(y: System, a: Step, wake: bool)
    requires Coupled(y) && CanMove(y, Serve(a, wake))
    ensures var y' := Do(y, Serve(a, wake)); y'.events.Keys == y'.server.loops.Keys
  {
    LoopsStay(y.server, a);
  }

  lemma ServeKeepsAt(y: System, a: Step, wake: bool, k: LoopId)
    requires Coupled(y) && CanMove(y, Serve(a, wake)) && k in y.events
    ensures var y' := Do(y, Serve(a, wake));
      k in y'.events && k in y'.server.loops && InStep(y'.server.loops[k], y'.events[k])
  {
    LoopsMove(y.server, a, k);
    ServeKeepsLoop(y, a, wake, k);
  }

  lemma ServeKeepsServer(y: System, a: Step, wake: bool)
    requires Coupled(y) && CanMove(y, Serve(a, wake))
    ensures var s' := Do(y, Serve(a, wake)).server; Inv(s') && ForeignFlights(s')
  {
    StepKeeps(y.server, a);
    FlightsStayForeign(y.server, a);
  }

  lemma ServeKeeps(y: System, a: Step, wake: bool)
    requires Coupled(y) && CanMove(y, Serve(a, wake))
    ensures Coupled(Do(y, Serve(a, wake)))
  {
    ServeKeepsKeys(y, a, wake);
    ServeKeepsLoops(y, a, wake);
    ServeKeepsServer(y, a, wake);
  }

  lemma LoopsStay(s: Server, a: Step)
    requires Typed(s) && Enabled(s, a)
    ensures Apply(s, a).loops.Keys == s.loops.Keys
  {
  }

  lemma LocalKeepsLoop(lp: Loop, ev: E.State, a: E.Action)
    requires InStep(lp, ev) && IsLocal(a) && E.Enabled(ev, a)
    requires a.EndDispatch? ==> lp.pc == Dispatching([])
    ensures InStep(lp, E.Step(ev, a))
  {
    E.StepSafe(ev, a, false);
  }

  lemma LocalKeeps(y: System, l: LoopId, a: E.Action)
    requires Coupled(y) && CanMove(y, Local(l, a))
    ensures Coupled(Do(y, Local(l, a)))
  {
    LocalKeepsLoop(y.server.loops[l], y.events[l], a);
  }

  lemma {:induction false} MovesKeep(y: System, ms: seq<Move>)
    requires Coupled(y) && LegalMoves(y, ms)
    ensures Coupled(After(y, ms))
    decreases |ms|
  {
    if ms != [] {
      match ms[0] {
        case Serve(a, wake) => ServeKeeps(y, a, wake);
        case Local(l, a) => LocalKeeps(y, l, a);
      }
      MovesKeep(Do(y, ms[0]), ms[1..]);
    }
  }

  // ------------------------------------------------------------------ main statements

  ghost predicate CanReach(y: System) {
    exists boot, ms :: IsBoot(boot) && LegalMoves(boot, ms) && y == After(boot, ms)
  }

  lemma BootIsSound(y: System)
    requires IsBoot(y)
    ensures Coupled(y)
  {
    StartInv(y.server);
  }

  lemma ReachedIsSound(y: System)
    requires CanReach(y)
    ensures Coupled(y)
  {
    var boot, ms :| IsBoot(boot) && LegalMoves(boot, ms) && y == After(boot, ms);
    BootIsSound(boot);
    MovesKeep(boot, ms);
  }

  /** A loop that can stay blocked in its poll: no channel is ready for it, and nobody
      is about to make its eventfd readable. */
  predicate Stuck(y: System, l: LoopId) {
    l in y.events && E.MayBlock(y.events[l]) && y.events[l].pushed == {}
  }

  /** No functor of any connection waits on a loop that can stay blocked. */
  lemma NoLostFunctor(y: System, l: LoopId)
    requires CanReach(y) && Stuck(y, l)
    ensures l in y.server.loops && y.server.loops[l].Queue() == []
    ensures y.events[l].quitting == {} ==> !y.events[l].quit
  {
    ReachedIsSound(y);
    assert InStep(y.server.loops[l], y.events[l]);
  }

  /** So a connection that waits to be established, removed or destroyed waits on a
      loop that cannot stay blocked, and so does a message that another thread sent. */
  lemma NoConnectionStranded(y: System, c: ConnId, l: LoopId)
    requires CanReach(y) && Stuck(y, l) && c in y.server.conns
    ensures l in y.server.loops
    ensures l == y.server.conns[c].loop ==> !EstablishQueued(y.server, c) && !DestroyQueued(y.server, c)
    ensures l == y.server.main ==> !RemovalQueued(y.server, c)
    ensures l == y.server.conns[c].loop ==> forall t :: WaitingBy(t, c, y.server.loops[l].Queue()) == []
  {
    NoLostFunctor(y, l);
  }
}
