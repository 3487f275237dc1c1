/** What the server's runs promise about each of its connections: kernel interest,
    high-water callbacks, and the exact condition for a graceful half-close. */
module ServerConnections {
  import opened Basics
  import opened ConnectionModel
  import opened ConnectionTheorems
  import opened Functors
  import opened ServerModel
  import opened ServerTheorems
  import opened ServerSteps
  import opened ServerFunctors
  import opened ServerDispatch
  import opened ServerRuns
  import opened ServerBatches
  import CR = ConnectionRuns
  import R = Registration

  /** Every open connection of the server is watched for input always and for output
      exactly while bytes are waiting; no other is watched. */
  lemma KernelInterest(s: Server, c: ConnId)
    requires Reachable(s) && c in s.conns
    ensures var conn := s.conns[c].conn;
      conn.reg.kernel ==
        if Open(s, c) then Some(if conn.output == [] then R.READ_EVENT else R.READ_EVENT.Or(R.WRITE_EVENT)) else None
    ensures Open(s, c) ==> R.InterestBits(s.conns[c].conn.reg.kernel.value, s.conns[c].conn.output != [])
  {
    ReachableEntry(s, c);
  }

  /** High-water tasks number the upward crossings, with a drain between two. */
  lemma HighWaterCrossings(s: Server, c: ConnId)
    requires Reachable(s) && c in s.conns
    ensures CR.CrossingsCounted(s.conns[c].conn)
  {
    ReachableEntry(s, c);
    assert Crossings([Depth(0, false)], s.conns[c].conn.options.mark) == 0;
    CR.WaterCounts(s.conns[c].conn);
  }

  // ------------------------------------------------------------------ half-close

  /** The step executes another thread's message on `c` after its write half was shut
      and while it is still open. */
  predicate TooLate(s: Server, a: Step, c: ConnId)
    requires Enabled(s, a)
  {
    && a.RunFunctor? && s.loops[a.l].batch[0].Deliver? && s.loops[a.l].batch[0].c == c
    && c in s.conns && s.conns[c].conn.state == Disconnecting && s.conns[c].conn.output == []
  }

  predicate Graceful(s: Server, steps: seq<Step>, c: ConnId)
    requires LegalRun(s, steps)
    decreases |steps|
  {
    steps != [] ==> !TooLate(s, steps[0], c) && Graceful(Apply(s, steps[0]), steps[1..], c)
  }

  /** What a step may do to a connection: late or not, and never less late. */
  predicate Turns(conn: Conn, conn': Conn, late: bool) {
    && (HalfClose(conn) ==> if late then conn'.net.lateWrites > 0 else HalfClose(conn'))
    && conn.net.lateWrites <= conn'.net.lateWrites
  }

  lemma EventTurns(e: Entry, m: R.Mask, io: IO)
    requires ConnOk(e) && e.phase == Alive && !ClosesThenReads(m)
    ensures Turns(e.conn, HandleEvent(e.conn, m, io), false)
  {
    EventKeeps(e.conn, m, io);
    CR.EventLate(e.conn, m, io);
  }

  lemma ScriptTurns(e: Entry, script: seq<Action>)
    requires ConnOk(e) && e.established > 0
    ensures Turns(e.conn, RunScript(e.conn, script), false)
  {
    CR.ScriptLate(e.conn, script);
    if e.phase == Alive {
      ScriptKeepsLive(e.conn, script);
    } else {
      ScriptOnClosed(e.conn, script);
    }
  }

  lemma DeliverTurns(e: Entry, who: Tid, data: seq<Byte>, w: WriteOutcome)
    requires ConnOk(e) && e.established > 0
    ensures Turns(e.conn, SendInLoop(e.conn, Foreign(who), data, w), e.conn.state == Disconnecting && e.conn.output == [])
  {
    CR.SendLate(e.conn, Foreign(who), data, w);
    if e.phase == Alive {
      if HalfClose(e.conn) { LateWriteIff(e.conn, Foreign(who), data, w); }
      SendEffect(e.conn, Foreign(who), data, w);
    } else {
      SendOnClosed(e.conn, Foreign(who), data, w);
    }
  }

  lemma EstablishTurns(options: Options, script: seq<Action>)
    ensures Turns(Fresh(options), ConnectEstablished(Fresh(options), script), false)
  {
    EstablishGoesLive(options, script);
  }

  lemma FunctorTurns(s: Server, l: LoopId, f: Functor, script: seq<Action>, w: WriteOutcome)
    requires Inv(s) && Heads(s, l, f) && f.c in s.conns
    ensures var s' := RunOne(Popped(s, l), f, script, w); var conn := s.conns[f.c].conn;
      f.c in s'.conns
      && Turns(conn, s'.conns[f.c].conn, f.Deliver? && conn.state == Disconnecting && conn.output == [])
  {
    var e := s.conns[f.c];
    HeadKnown(s, l, f);
    assert EntryOk(s, f.c);
    match f
    case Establish(c) =>
      HeadMeans(s, l, f);
      EstablishTurns(e.conn.options, script);
    case RemoveInLoop(c) =>
    case Destroy(c) =>
      HeadMeans(s, l, f);
      DestroyAfterClose(e.conn, script);
    case Deliver(c, sender, data) =>
      DeliverMeansCalls(s, l, f);
      DeliverTurns(e, sender, data, w);
  }

  lemma RunTurns(s: Server, a: Step, c: ConnId)
    requires Inv(s) && Enabled(s, a) && a.RunFunctor? && c in s.conns
    ensures c in Apply(s, a).conns && Turns(s.conns[c].conn, Apply(s, a).conns[c].conn, TooLate(s, a, c))
  {
    var f := s.loops[a.l].batch[0];
    HeadKnown(s, a.l, f);
    if f.c == c {
      FunctorTurns(s, a.l, f, a.script, a.w);
    } else {
      RunOneAside(Popped(s, a.l), f, a.script, a.w, c);
    }
  }

  lemma DispatchTurns(s: Server, a: Step, c: ConnId)
    requires Inv(s) && Enabled(s, a) && a.Dispatch? && c in s.conns
    ensures c in Apply(s, a).conns && Turns(s.conns[c].conn, Apply(s, a).conns[c].conn, false)
  {
    var item := s.loops[a.l].pc.active[0];
    var s1 := Taken(s, a.l);
    assert ActiveOk(s, a.l);
    assert ItemOk(s, a.l, item);
    var conn := HandleEvent(s.conns[item.c].conn, item.revents, a.io);
    if item.c == c {
      assert EntryOk(s, c);
      EventTurns(s.conns[c], item.revents, a.io);
      HandledConn(s1, a.l, c, conn);
    } else {
      HandledAside(s1, a.l, item.c, conn, c);
    }
  }

  lemma HandledConn(s: Server, l: LoopId, c: ConnId, conn: Conn)
    requires c in s.conns
    ensures c in Handled(s, l, c, conn).conns && Handled(s, l, c, conn).conns[c].conn == conn
  {
  }

  lemma UserCodeTurns(s: Server, a: Step, c: ConnId)
    requires Inv(s) && Enabled(s, a) && a.UserCode? && c in s.conns
    ensures c in Apply(s, a).conns && Turns(s.conns[c].conn, Apply(s, a).conns[c].conn, false)
  {
    if a.c == c {
      assert EntryOk(s, c);
      ScriptTurns(s.conns[c], a.script);
    }
  }

  lemma OtherTurns(s: Server, a: Step, c: ConnId)
    requires Typed(s) && Enabled(s, a) && c in s.conns
    requires !a.Dispatch? && !a.DispatchAccept? && !a.RunFunctor? && !a.UserCode?
    ensures c in Apply(s, a).conns && Turns(s.conns[c].conn, Apply(s, a).conns[c].conn, false)
  {
  }

  lemma StepTurns(s: Server, a: Step, c: ConnId)
    requires Inv(s) && Enabled(s, a) && c in s.conns
    ensures c in Apply(s, a).conns && Turns(s.conns[c].conn, Apply(s, a).conns[c].conn, TooLate(s, a, c))
  {
    match a
    case Dispatch(_, _) => DispatchTurns(s, a, c);
    case DispatchAccept(_, _, _, _) => AcceptSpares(s, a, c);
    case RunFunctor(_, _, _) => RunTurns(s, a, c);
    case UserCode(_, _, _) => UserCodeTurns(s, a, c);
    case _ => OtherTurns(s, a, c);
  }

  lemma HandledKnows(s: Server, l: LoopId, c: ConnId, conn: Conn)
    ensures Handled(s, l, c, conn).conns.Keys == s.conns.Keys
  {
  }

  lemma RunKnows(s: Server, f: Functor, script: seq<Action>, w: WriteOutcome)
    ensures RunOne(s, f, script, w).conns.Keys == s.conns.Keys
  {
  }

  lemma OtherKnows(s: Server, a: Step)
    requires Enabled(s, a) && !a.Dispatch? && !a.DispatchAccept? && !a.RunFunctor?
    ensures Apply(s, a).conns.Keys == s.conns.Keys
  {
  }

  /** Only accepting brings in a connection. */
  lemma NothingNew(s: Server, a: Step)
    requires Enabled(s, a) && !a.DispatchAccept?
    ensures Apply(s, a).conns.Keys == s.conns.Keys
  {
    match a
    case Dispatch(l, io) =>
      var item := s.loops[l].pc.active[0];
      if item.c in s.conns {
        HandledKnows(Taken(s, l), l, item.c, HandleEvent(s.conns[item.c].conn, item.revents, io));
      }
    case RunFunctor(l, script, w) => RunKnows(Popped(s, l), s.loops[l].batch[0], script, w);
    case _ => OtherKnows(s, a);
  }

  /** A connection that a step has brought in begins gracefully. */
  lemma NewIsGraceful(s: Server, a: Step, c: ConnId)
    requires Enabled(s, a) && c !in s.conns && c in Apply(s, a).conns
    ensures HalfClose(Apply(s, a).conns[c].conn)
  {
    if a.DispatchAccept? {
      EstablishGoesLive(a.options, a.script);
    } else {
      NothingNew(s, a);
    }
  }

  lemma {:induction false} LateStays(s: Server, steps: seq<Step>, c: ConnId)
    requires Inv(s) && LegalRun(s, steps) && c in s.conns && s.conns[c].conn.net.lateWrites > 0
    ensures c in Run(s, steps).conns && Run(s, steps).conns[c].conn.net.lateWrites > 0
    decreases |steps|
  {
    if steps != [] {
      StepKeeps(s, steps[0]);
      StepTurns(s, steps[0], c);
      LateStays(Apply(s, steps[0]), steps[1..], c);
    }
  }

  lemma {:induction false} HalfCloseFrom(s: Server, steps: seq<Step>, c: ConnId)
    requires Inv(s) && LegalRun(s, steps) && (c in s.conns ==> HalfClose(s.conns[c].conn))
    ensures var s' := Run(s, steps); c in s'.conns ==>
      && (s'.conns[c].conn.net.lateWrites == 0 <==> Graceful(s, steps, c))
      && (Graceful(s, steps, c) ==> HalfClose(s'.conns[c].conn))
    decreases |steps|
  {
    if steps != [] {
      var a, s1 := steps[0], Apply(s, steps[0]);
      StepKeeps(s, a);
      if c in s.conns {
        StepTurns(s, a, c);
      } else if c in s1.conns {
        NewIsGraceful(s, a, c);
      }
      if TooLate(s, a, c) {
        LateStays(s1, steps[1..], c);
      } else {
        HalfCloseFrom(s1, steps[1..], c);
      }
    }
  }

  /** Over every run of the server, with any number of sending threads: no write on a
      connection follows the shutdown of its write half exactly when no message of
      another thread runs after it while the connection is open; and then the write
      half is shut at most once, with every accepted byte on the wire. */
  lemma HalfCloseRun(start: Server, steps: seq<Step>, c: ConnId)
    requires IsStart(start) && LegalRun(start, steps) && c in Run(start, steps).conns
    ensures var conn := Run(start, steps).conns[c].conn;
      && (conn.net.lateWrites == 0 <==> Graceful(start, steps, c))
      && (Graceful(start, steps, c) ==>
            && conn.net.shutdowns <= 1
            && (conn.net.shutdowns == 1 ==> conn.output == [] && conn.net.wire == AcceptedBytes(conn.ledger.log))
            && (conn.state == Disconnecting && conn.output == [] ==> conn.net.shutdowns == 1))
  {
    StartInv(start);
    HalfCloseFrom(start, steps, c);
    StreamIntegrity(Run(start, steps), c);
  }
}
