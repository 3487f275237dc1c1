/** TcpServer over several event loops as a concurrent step system: connections are
    accepted on the main loop, live on a sub loop (or on the main loop itself), and
    hop between the two through the functor queues until they are destroyed. Other
    threads may send on any connection at any time. */
module ServerModel {
  import opened Basics
  import opened ConnectionModel
  import opened ConnectionTheorems
  import opened Functors
  import R = Registration

  /** An active channel: a connection with its event mask, or the acceptor. */
  datatype Item = Ready(c: ConnId, revents: R.Mask) | Accept

  datatype Pc = Polling | Dispatching(active: seq<Item>) | Calling

  datatype Loop = Loop(pc: Pc, pending: seq<Functor>, batch: seq<Functor>) {
    /** What is still to run: the rest of the batch, then the queue. */
    function Queue(): seq<Functor> { batch + pending }
  }

  datatype Phase = Establishing | Alive | Closing | Dying | Destroyed

  datatype Posted = Posted(sender: Tid, data: seq<Byte>)

  /** A connection with its history: its phase, how often it was established and
      destroyed, and the messages that other threads' `Send` has taken on. */
  datatype Entry = Entry(
    loop: LoopId, conn: Conn, phase: Phase,
    established: nat, destroyed: nat, calls: seq<Posted>)

  /** `flights`: threads that have seen `kConnected` in `Send` but not yet queued
      the functor that carries their message. */
  datatype Server = Server(
    main: LoopId, loops: map<LoopId, Loop>, conns: map<ConnId, Entry>,
    connections: set<ConnId>, nextId: ConnId, flights: map<Tid, (ConnId, seq<Byte>)>)

  // -------------------------------------------------------------------- pieces

  function Push(s: Server, l: LoopId, f: Functor): Server {
    if l in s.loops then
      s.(loops := s.loops[l := s.loops[l].(pending := s.loops[l].pending + [f])])
    else s
  }

  function SetPc(s: Server, l: LoopId, pc: Pc): Server {
    if l in s.loops then s.(loops := s.loops[l := s.loops[l].(pc := pc)]) else s
  }

  function SetEntry(s: Server, c: ConnId, e: Entry): Server {
    s.(conns := s.conns[c := e])
  }

  /** `NewConnection` on the main loop: the connection is entered at once; it is
      established at once on the main loop, through the queue on another. */
  function NewConnection(s: Server, target: LoopId, options: Options, script: seq<Action>): Server {
    var c := s.nextId;
    var s1 := s.(nextId := c + 1, connections := s.connections + {c});
    if target == s.main then
      SetEntry(s1, c, Entry(target, ConnectEstablished(Fresh(options), script), Alive, 1, 0, []))
    else
      Push(SetEntry(s1, c, Entry(target, Fresh(options), Establishing, 0, 0, [])), target, Establish(c))
  }

  function RemoveConnectionInLoop(s: Server, c: ConnId): Server {
    if c in s.conns then
      var e := s.conns[c];
      Push(SetEntry(s, c, e.(phase := Dying)).(connections := s.connections - {c}), e.loop, Destroy(c))
    else s
  }

  /** The close callback, run on the thread of loop `caller`. */
  function RemoveConnection(s: Server, caller: LoopId, c: ConnId): Server {
    if c !in s.conns then s
    else if caller == s.main then RemoveConnectionInLoop(s, c)
    else Push(SetEntry(s, c, s.conns[c].(phase := Closing)), s.main, RemoveInLoop(c))
  }

  /** Give connection `c` its new state and, if it has asked for it, remove it. */
  function Handled(s: Server, l: LoopId, c: ConnId, conn: Conn): Server {
    if c !in s.conns then s
    else
      var e := s.conns[c];
      var s1 := SetEntry(s, c, e.(conn := conn));
      if conn.ledger.closeRequests > e.conn.ledger.closeRequests then RemoveConnection(s1, l, c) else s1
  }

  function RunOne(s: Server, f: Functor, script: seq<Action>, w: WriteOutcome): Server {
    if f.c !in s.conns then s
    else
      var e := s.conns[f.c];
      match f
      case Establish(c) =>
        SetEntry(s, c, e.(conn := ConnectEstablished(e.conn, script), phase := Alive, established := e.established + 1))
      case RemoveInLoop(c) => RemoveConnectionInLoop(s, c)
      case Destroy(c) =>
        SetEntry(s, c, e.(conn := ConnectDestroyed(e.conn, script), phase := Destroyed, destroyed := e.destroyed + 1))
      case Deliver(c, sender, data) =>
        SetEntry(s, c, e.(conn := SendInLoop(e.conn, Foreign(sender), data, w)))
  }

  // --------------------------------------------------------------------- steps

  datatype Step =
    // the thread of loop `l`
    | Poll(l: LoopId, active: seq<Item>)
    | Dispatch(l: LoopId, io: IO)
    | DispatchAccept(l: LoopId, target: LoopId, options: Options, script: seq<Action>)
    | BeginFunctors(l: LoopId)
    | RunFunctor(l: LoopId, script: seq<Action>, w: WriteOutcome)
    | EndFunctors(l: LoopId)
    | UserCode(l: LoopId, c: ConnId, script: seq<Action>)
    // any other thread: the two halves of a foreign `Send`
    | CheckState(t: Tid, c: ConnId, data: seq<Byte>)
    | PostMessage(t: Tid)

  /** What one poll of loop `l` may report: each fd at most once, and only fds that
      the kernel watches; the acceptor belongs to the main loop. */
  predicate Reportable(s: Server, l: LoopId, active: seq<Item>) {
    && (forall i :: 0 <= i < |active| ==> match active[i]
          case Ready(c, m) =>
            c in s.conns && s.conns[c].loop == l && s.conns[c].conn.reg.kernel.Some? && !ClosesThenReads(m)
          case Accept => l == s.main)
    && Distinct(active)
  }

  predicate Distinct(active: seq<Item>) {
    forall i, j :: 0 <= i < j < |active| && active[i].Ready? && active[j].Ready? ==> active[i].c != active[j].c
  }

  predicate Enabled(s: Server, a: Step) {
    match a
    case Poll(l, active) => l in s.loops && s.loops[l].pc == Polling && Reportable(s, l, active)
    case Dispatch(l, _) =>
      l in s.loops && s.loops[l].pc.Dispatching? && s.loops[l].pc.active != [] && s.loops[l].pc.active[0].Ready?
    case DispatchAccept(l, target, _, _) =>
      && l in s.loops && s.loops[l].pc.Dispatching? && s.loops[l].pc.active != [] && s.loops[l].pc.active[0].Accept?
      && target in s.loops
    case BeginFunctors(l) => l in s.loops && s.loops[l].pc == Dispatching([])
    case RunFunctor(l, _, _) => l in s.loops && s.loops[l].pc == Calling && s.loops[l].batch != []
    case EndFunctors(l) => l in s.loops && s.loops[l].pc == Calling && s.loops[l].batch == []
    case UserCode(l, c, _) =>
      l in s.loops && s.loops[l].pc != Polling && c in s.conns && s.conns[c].loop == l && s.conns[c].established > 0
    case CheckState(t, c, _) =>
      // Another thread may have read `kConnected` at any moment since establishment
      // began, also within a step of the loop, so the present state does not matter.
      t !in s.flights && c in s.conns && s.conns[c].loop != t && s.conns[c].established > 0
    case PostMessage(t) => t in s.flights
  }

  function Apply(s: Server, a: Step): Server
    requires Enabled(s, a)
  {
    match a
    case Poll(l, active) => SetPc(s, l, Dispatching(active))
    case Dispatch(l, io) =>
      var item := s.loops[l].pc.active[0];
      var s1 := SetPc(s, l, Dispatching(s.loops[l].pc.active[1..]));
      if item.c in s.conns then Handled(s1, l, item.c, HandleEvent(s.conns[item.c].conn, item.revents, io)) else s1
    case DispatchAccept(l, target, options, script) =>
      NewConnection(SetPc(s, l, Dispatching(s.loops[l].pc.active[1..])), target, options, script)
    case BeginFunctors(l) =>
      s.(loops := s.loops[l := Loop(Calling, [], s.loops[l].pending)])
    case RunFunctor(l, script, w) =>
      var lp := s.loops[l];
      RunOne(s.(loops := s.loops[l := lp.(batch := lp.batch[1..])]), lp.batch[0], script, w)
    case EndFunctors(l) => SetPc(s, l, Polling)
    case UserCode(l, c, script) =>
      SetEntry(s, c, s.conns[c].(conn := RunScript(s.conns[c].conn, script)))
    case CheckState(t, c, data) =>
      SetEntry(s, c, s.conns[c].(calls := s.conns[c].calls + [Posted(t, data)])).(flights := s.flights[t := (c, data)])
    case PostMessage(t) =>
      var (c, data) := s.flights[t];
      var s1 := s.(flights := s.flights - {t});
      if c in s.conns then Push(s1, s.conns[c].loop, Deliver(c, t, data)) else s1
  }

  predicate LegalRun(s: Server, steps: seq<Step>)
    decreases |steps|
  {
    steps != [] ==> Enabled(s, steps[0]) && LegalRun(Apply(s, steps[0]), steps[1..])
  }

  function Run(s: Server, steps: seq<Step>): Server
    requires LegalRun(s, steps)
    decreases |steps|
  {
    if steps == [] then s else Run(Apply(s, steps[0]), steps[1..])
  }

  /** All loops idle, no connection yet. */
  predicate IsStart(s: Server) {
    && s.main in s.loops
    && (forall l :: l in s.loops ==> s.loops[l] == Loop(Polling, [], []))
    && s.conns == map[] && s.connections == {} && s.flights == map[]
  }

  // -------------------------------------------------------------- derived views

  /** The functors in `q` that move connection `c` through its life. */
  function Life(c: ConnId, q: seq<Functor>): seq<Functor> {
    if q == [] then []
    else
      var f := q[|q| - 1];
      Life(c, q[..|q| - 1]) + (if f.c == c && !f.Deliver? then [f] else [])
  }

  /** The messages of thread `t` for connection `c` that wait in `q`. */
  function WaitingBy(t: Tid, c: ConnId, q: seq<Functor>): seq<seq<Byte>> {
    if q == [] then []
    else
      var f := q[|q| - 1];
      WaitingBy(t, c, q[..|q| - 1]) + (if f.Deliver? && f.c == c && f.sender == t then [f.data] else [])
  }

  function CallsBy(t: Tid, calls: seq<Posted>): seq<seq<Byte>> {
    if calls == [] then []
    else
      var m := calls[|calls| - 1];
      CallsBy(t, calls[..|calls| - 1]) + (if m.sender == t then [m.data] else [])
  }

  function InFlight(s: Server, t: Tid, c: ConnId): seq<seq<Byte>> {
    if t in s.flights && s.flights[t].0 == c then [s.flights[t].1] else []
  }
}
