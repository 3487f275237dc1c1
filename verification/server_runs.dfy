/** Statements over every run of the server, its loops and the sending threads. */
module ServerRuns {
  import opened Basics
  import opened ConnectionModel
  import opened ConnectionTheorems
  import opened ConnectionEffects
  import opened Functors
  import opened ServerModel
  import opened ServerTheorems
  import opened ServerSteps
  import opened ServerFunctors
  import opened ServerDispatch
  import R = Registration

  lemma StepKeeps(s: Server, a: Step)
    requires Inv(s) && Enabled(s, a)
    ensures Inv(Apply(s, a))
  {
    match a
    case Poll(l, active) => PollKeeps(s, l, active);
    case Dispatch(l, io) => DispatchKeeps(s, l, io);
    case DispatchAccept(l, target, options, script) => AcceptKeeps(s, l, target, options, script);
    case BeginFunctors(l) => BeginKeeps(s, l);
    case RunFunctor(l, script, w) => RunKeeps(s, l, script, w);
    case EndFunctors(l) => EndKeeps(s, l);
    case UserCode(l, c, script) => UserCodeKeeps(s, l, c, script);
    case CheckState(t, c, data) => CheckKeeps(s, t, c, data);
    case PostMessage(t) => PostKeeps(s, t);
  }

  lemma StartInv(s: Server)
    requires IsStart(s)
    ensures Inv(s)
  {
  }

  lemma {:induction false} RunInv(s: Server, steps: seq<Step>)
    requires Inv(s) && LegalRun(s, steps)
    ensures Inv(Run(s, steps))
    decreases |steps|
  {
    if steps != [] {
      StepKeeps(s, steps[0]);
      RunInv(Apply(s, steps[0]), steps[1..]);
    }
  }

  ghost predicate Reachable(s: Server) {
    exists start, steps :: IsStart(start) && LegalRun(start, steps) && s == Run(start, steps)
  }

  lemma ReachableInv(s: Server)
    requires Reachable(s)
    ensures Inv(s)
  {
    var start, steps :| IsStart(start) && LegalRun(start, steps) && s == Run(start, steps);
    StartInv(start);
    RunInv(start, steps);
  }

  lemma ReachableEntry(s: Server, c: ConnId)
    requires Reachable(s) && c in s.conns
    ensures Typed(s) && EntryOk(s, c)
  {
    ReachableInv(s);
  }

  // ------------------------------------------------------------------ lifecycle

  predicate EstablishQueued(s: Server, c: ConnId)
    requires c in s.conns
  {
    s.conns[c].loop in s.loops && Establish(c) in s.loops[s.conns[c].loop].Queue()
  }

  predicate Open(s: Server, c: ConnId)
    requires c in s.conns
  {
    s.conns[c].conn.state == Connected || s.conns[c].conn.state == Disconnecting
  }

  predicate RemovalQueued(s: Server, c: ConnId) {
    s.main in s.loops && RemoveInLoop(c) in s.loops[s.main].Queue()
  }

  predicate DestroyQueued(s: Server, c: ConnId)
    requires c in s.conns
  {
    s.conns[c].loop in s.loops && Destroy(c) in s.loops[s.conns[c].loop].Queue()
  }

  predicate Finished(s: Server, c: ConnId)
    requires c in s.conns
  {
    s.conns[c].conn.state == Disconnected && !s.conns[c].conn.reg.mapped
  }

  function One(b: bool): nat { if b then 1 else 0 }

  lemma {:induction false} InLife(c: ConnId, q: seq<Functor>, f: Functor)
    requires f.c == c && !f.Deliver?
    ensures f in q <==> f in Life(c, q)
  {
    if q != [] {
      var n := |q| - 1;
      InLife(c, q[..n], f);
      assert q == q[..n] + [q[n]];
    }
  }

  lemma WaitsIff(s: Server, c: ConnId, l: LoopId, f: Functor)
    requires c in s.conns && l in s.loops && PlaceOk(s, c) && f.c == c && !f.Deliver?
    ensures f in s.loops[l].Queue() <==> Expected(s.main, s.conns[c], c, l) == [f]
  {
    InLife(c, s.loops[l].Queue(), f);
    assert Life(c, s.loops[l].Queue()) == Expected(s.main, s.conns[c], c, l);
  }

  /** Which life functors wait, by phase. */
  lemma QueuedByPhase(s: Server, c: ConnId)
    requires c in s.conns && s.conns[c].loop in s.loops && s.main in s.loops && PlaceOk(s, c)
    ensures var phase := s.conns[c].phase;
      && (EstablishQueued(s, c) <==> phase == Establishing)
      && (RemovalQueued(s, c) <==> phase == Closing)
      && (DestroyQueued(s, c) <==> phase == Dying)
  {
    WaitsIff(s, c, s.conns[c].loop, Establish(c));
    WaitsIff(s, c, s.main, RemoveInLoop(c));
    WaitsIff(s, c, s.conns[c].loop, Destroy(c));
  }

  /** Every accepted connection is, at every moment, in exactly one of five observable
      situations, and the server's map holds it in exactly the first three. */
  lemma ExactlyOnePhase(s: Server, c: ConnId)
    requires Reachable(s) && c in s.conns
    ensures One(EstablishQueued(s, c)) + One(Open(s, c)) + One(RemovalQueued(s, c))
          + One(DestroyQueued(s, c)) + One(Finished(s, c)) == 1
    ensures c in s.connections <==> EstablishQueued(s, c) || Open(s, c) || RemovalQueued(s, c)
  {
    ReachableEntry(s, c);
    QueuedByPhase(s, c);
    OpenByPhase(s.conns[c]);
  }

  lemma OpenByPhase(e: Entry)
    requires ConnOk(e)
    ensures (e.conn.state == Connected || e.conn.state == Disconnecting) <==> e.phase == Alive
    ensures e.conn.state == Disconnected && !e.conn.reg.mapped <==> e.phase == Destroyed
  {
  }

  // ------------------------------------------------- what the server's methods leave

  /** An accepted connection: in the map and on its loop, established if that is the
      main loop, else waiting to be. */
  ghost predicate NewlyIn(s: Server, c: ConnId, target: LoopId) {
    && c in s.connections && c in s.conns && s.conns[c].loop == target
    && (if target == s.main then Open(s, c) && s.conns[c].established == 1 else EstablishQueued(s, c))
  }

  ghost predicate Removed(s: Server, c: ConnId) {
    c !in s.connections && c in s.conns && DestroyQueued(s, c)
  }

  ghost predicate RemovalPosted(s: Server, c: ConnId) {
    c in s.connections && c in s.conns && RemovalQueued(s, c)
  }

  lemma AcceptPlaces(s: Server, target: LoopId, options: Options, script: seq<Action>)
    requires Inv(s) && target in s.loops
    ensures var s' := NewConnection(s, target, options, script);
      && Inv(s') && s.nextId !in s.conns && NewlyIn(s', s.nextId, target)
      && s'.conns[s.nextId].conn == (if target == s.main then RunScript(JustUp(options), script) else Fresh(options))
      && forall d :: d in s.conns ==> d in s'.conns && s'.conns[d] == s.conns[d]
  {
    EstablishEffect(options, script);
    NewKeeps(s, target, options, script);
    NewPhase(s, target, options, script);
    NewPlaces(NewConnection(s, target, options, script), s.nextId, target);
  }

  lemma NewPhase(s: Server, target: LoopId, options: Options, script: seq<Action>)
    requires Typed(s) && target in s.loops
    ensures var s' := NewConnection(s, target, options, script);
      && s.nextId !in s.conns && s.nextId in s'.conns && s'.main == s.main
      && s'.conns[s.nextId].loop == target
      && s'.conns[s.nextId].conn
         == (if target == s.main then ConnectEstablished(Fresh(options), script) else Fresh(options))
      && s'.conns[s.nextId].phase == (if target == s.main then Alive else Establishing)
      && forall d :: d in s.conns ==> d in s'.conns && s'.conns[d] == s.conns[d]
  {
  }

  lemma NewPlaces(s: Server, c: ConnId, target: LoopId)
    requires Inv(s) && c in s.conns && s.conns[c].loop == target
    requires s.conns[c].phase == if target == s.main then Alive else Establishing
    ensures NewlyIn(s, c, target)
  {
    assert EntryOk(s, c);
    QueuedByPhase(s, c);
    OpenByPhase(s.conns[c]);
  }

  lemma RemovalPlaces(s: Server, l: LoopId, c: ConnId)
    requires AwaitsRemoval(s, c)
    ensures var s' := RemoveConnection(s, l, c);
      Inv(s') && if l == s.main then Removed(s', c) else RemovalPosted(s', c)
  {
    var s' := RemoveConnection(s, l, c);
    RemovalKeeps(s, l, c);
    assert EntryOk(s', c);
    QueuedByPhase(s', c);
  }

  /** No life functor is ever queued twice, on one loop or on two. */
  lemma NeverQueuedTwice(s: Server, c: ConnId, l: LoopId, k: LoopId)
    requires Reachable(s) && c in s.conns && l in s.loops && k in s.loops
    ensures |Life(c, s.loops[l].Queue())| <= 1
    ensures l != k && Life(c, s.loops[l].Queue()) != [] ==> Life(c, s.loops[k].Queue()) == []
  {
    ReachableEntry(s, c);
    var e := s.conns[c];
    assert Life(c, s.loops[l].Queue()) == Expected(s.main, e, c, l);
    assert Life(c, s.loops[k].Queue()) == Expected(s.main, e, c, k);
  }

  /** `ConnectEstablished` and `ConnectDestroyed` each run at most once, the second
      only after the first, and exactly when the situation says so. */
  lemma EstablishedThenDestroyedOnce(s: Server, c: ConnId)
    requires Reachable(s) && c in s.conns
    ensures s.conns[c].destroyed <= s.conns[c].established <= 1
    ensures s.conns[c].established == 0 <==> EstablishQueued(s, c)
    ensures s.conns[c].destroyed == 1 <==> Finished(s, c)
  {
    ReachableEntry(s, c);
    QueuedByPhase(s, c);
    OpenByPhase(s.conns[c]);
  }

  function Rank(phase: Phase): nat {
    match phase
    case Establishing => 0
    case Alive => 1
    case Closing => 2
    case Dying => 3
    case Destroyed => 4
  }

  /** What no step undoes: a connection stays known, on its loop, and its recorded
      phase only moves on. */
  ghost predicate Advances(s: Server, s': Server) {
    forall c :: c in s.conns ==>
      && c in s'.conns && s'.conns[c].loop == s.conns[c].loop
      && Rank(s.conns[c].phase) <= Rank(s'.conns[c].phase)
      && s.conns[c].established <= s'.conns[c].established && s.conns[c].destroyed <= s'.conns[c].destroyed
  }

  lemma RunAdvances(s: Server, f: Functor, script: seq<Action>, w: WriteOutcome)
    requires f.c in s.conns
    requires f.Establish? ==> s.conns[f.c].phase == Establishing
    requires f.RemoveInLoop? ==> s.conns[f.c].phase == Closing
    ensures Advances(s, RunOne(s, f, script, w))
  {
  }

  lemma HandledAdvances(s: Server, l: LoopId, c: ConnId, conn: Conn)
    requires Typed(s) && c in s.conns && s.conns[c].phase == Alive
    ensures Advances(s, Handled(s, l, c, conn))
  {
    var s' := Handled(s, l, c, conn);
    forall d | d in s.conns && d != c ensures d in s'.conns && s'.conns[d] == s.conns[d] {
      HandledAside(s, l, c, conn, d);
    }
  }

  lemma NewAdvances(s: Server, target: LoopId, options: Options, script: seq<Action>)
    requires Typed(s)
    ensures Advances(s, NewConnection(s, target, options, script))
  {
  }

  lemma OtherAdvances(s: Server, a: Step)
    requires Typed(s) && Enabled(s, a) && !a.Dispatch? && !a.DispatchAccept? && !a.RunFunctor?
    ensures Advances(s, Apply(s, a))
  {
  }

  lemma StepAdvances(s: Server, a: Step)
    requires Inv(s) && Enabled(s, a)
    ensures Advances(s, Apply(s, a))
  {
    match a
    case Dispatch(l, io) =>
      var item := s.loops[l].pc.active[0];
      assert ActiveOk(s, l);
      assert ItemOk(s, l, item);
      TakenKeeps(s, l);
      HandledAdvances(Taken(s, l), l, item.c, HandleEvent(s.conns[item.c].conn, item.revents, io));
    case DispatchAccept(l, target, options, script) =>
      TakenKeeps(s, l);
      NewAdvances(Taken(s, l), target, options, script);
    case RunFunctor(l, script, w) =>
      var f := s.loops[l].batch[0];
      HeadKnown(s, l, f);
      assert EntryOk(s, f.c);
      if !f.Deliver? { HeadMeans(s, l, f); }
      RunAdvances(Popped(s, l), f, script, w);
    case _ => OtherAdvances(s, a);
  }

  lemma {:induction false} RunRanks(s: Server, steps: seq<Step>)
    requires Inv(s) && LegalRun(s, steps)
    ensures Advances(s, Run(s, steps)) && Inv(Run(s, steps))
    decreases |steps|
  {
    if steps != [] {
      StepKeeps(s, steps[0]);
      StepAdvances(s, steps[0]);
      RunRanks(Apply(s, steps[0]), steps[1..]);
    }
  }

  /** The five situations of `ExactlyOnePhase`, in the order of a connection's life. */
  ghost function Situation(s: Server, c: ConnId): nat
    requires c in s.conns
  {
    if EstablishQueued(s, c) then 0
    else if Open(s, c) then 1
    else if RemovalQueued(s, c) then 2
    else if DestroyQueued(s, c) then 3
    else 4
  }

  lemma SituationIsPhase(s: Server, c: ConnId)
    requires Inv(s) && c in s.conns
    ensures Situation(s, c) == Rank(s.conns[c].phase)
  {
    assert EntryOk(s, c);
    QueuedByPhase(s, c);
    OpenByPhase(s.conns[c]);
  }

  /** Over every run a connection stays known, on its loop, and never goes back to an
      earlier situation. */
  lemma PhasesOnlyAdvance(s: Server, steps: seq<Step>, c: ConnId)
    requires Reachable(s) && LegalRun(s, steps) && c in s.conns
    ensures var s' := Run(s, steps);
      && c in s'.conns && s'.conns[c].loop == s.conns[c].loop
      && Situation(s, c) <= Situation(s', c)
  {
    ReachableInv(s);
    RunRanks(s, steps);
    SituationIsPhase(s, c);
    SituationIsPhase(Run(s, steps), c);
  }

  // ------------------------------------------------------------------- dispatch

  /** A channel reported by a poll is still in the poller's map and in the kernel's
      list, with the right interest, when its turn comes, also when the main loop
      hosts the connection itself. */
  lemma DispatchSafety(s: Server, l: LoopId, i: nat)
    requires Reachable(s) && l in s.loops && s.loops[l].pc.Dispatching?
    requires i < |s.loops[l].pc.active| && s.loops[l].pc.active[i].Ready?
    ensures var c := s.loops[l].pc.active[i].c;
      && c in s.conns && s.conns[c].loop == l
      && s.conns[c].conn.reg.mapped && s.conns[c].conn.reg.index == R.ADDED
      && s.conns[c].conn.reg.kernel == Some(R.Wanted(s.conns[c].conn.output != []))
  {
    ReachableInv(s);
    assert ActiveOk(s, l);
    assert ItemOk(s, l, s.loops[l].pc.active[i]);
    assert EntryOk(s, s.loops[l].pc.active[i].c);
  }

  // --------------------------------------------------------------------- stream

  /** With any number of sending threads, bytes on the wire and waiting bytes are the
      accepted messages in the order in which `SendInLoop` ran. */
  lemma StreamIntegrity(s: Server, c: ConnId)
    requires Reachable(s) && c in s.conns
    ensures s.conns[c].conn.net.wire + s.conns[c].conn.output == AcceptedBytes(s.conns[c].conn.ledger.log)
  {
    ReachableEntry(s, c);
    assert AcceptedBytes([]) == [];
  }

  /** Each thread's messages reach `SendInLoop` in the order of its calls: those
      executed, then those queued on the connection's loop, then the one in flight. */
  lemma SenderOrder(s: Server, c: ConnId, t: Tid)
    requires Reachable(s) && c in s.conns && s.conns[c].loop in s.loops
    ensures var e := s.conns[c];
      CallsBy(t, e.calls)
      == SentBy(t, e.conn.ledger.log) + WaitingBy(t, c, s.loops[e.loop].Queue()) + InFlight(s, t, c)
  {
    ReachableEntry(s, c);
  }

  // ------------------------------------------------------- callbacks and shutdown

  /** Per connection, in every run: nothing before establishment, then one UP and
      messages, then one DOWN as soon as the connection closes and nothing after. */
  lemma CallbackOrder(s: Server, c: ConnId)
    requires Reachable(s) && c in s.conns
    ensures var conn := s.conns[c].conn; var t := conn.ledger.callbacks;
      && (EstablishQueued(s, c) ==> t == [])
      && (Open(s, c) ==> OpenTrace(t))
      && (conn.state == Disconnected ==> ClosedTrace(t))
  {
    ReachableEntry(s, c);
    var e := s.conns[c];
    assert Life(c, s.loops[e.loop].Queue()) == Expected(s.main, e, c, e.loop);
    InLife(c, s.loops[e.loop].Queue(), Establish(c));
  }

  /** A connection on which only its own loop thread sends and shuts down is closed
      for writing at most once, with every accepted byte out, and never written to
      afterwards. */
  lemma GracefulShutdown(s: Server, c: ConnId)
    requires Reachable(s) && c in s.conns && s.conns[c].calls == []
    ensures var conn := s.conns[c].conn;
      && conn.net.shutdowns <= 1 && conn.net.lateWrites == 0
      && (conn.net.shutdowns == 1 ==> conn.output == [] && conn.net.wire == AcceptedBytes(conn.ledger.log))
  {
    ReachableEntry(s, c);
    StreamIntegrity(s, c);
  }
}
