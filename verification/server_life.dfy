/** A whole life, step by step: every kind of step and of functor takes part in a run
    that accepts a connection on a sub loop, serves it and destroys it. */
module ServerLife {
  import opened Basics
  import opened Kernel
  import opened ConnectionModel
  import opened ConnectionTheorems
  import opened ConnectionEffects
  import opened Functors
  import opened ServerModel
  import R = Registration

  /** A server with main loop 0, sub loop 1 and connection 0 on the sub loop. */
  function World(main: Loop, sub: Loop, e: Entry, known: set<ConnId>, flights: map<Tid, (ConnId, seq<Byte>)>): Server {
    Server(0, map[0 := main, 1 := sub], map[0 := e], known, 1, flights)
  }

  const Idle := Loop(Polling, [], [])

  const Main := Loop(Dispatching([]), [], [])

  const Empty := Server(0, map[0 := Idle, 1 := Idle], map[], {}, 0, map[])

  /** `steps` lead from `s` to `t`. */
  ghost predicate Leads(s: Server, steps: seq<Step>, t: Server) {
    LegalRun(s, steps) && Run(s, steps) == t
  }

  lemma Here(s: Server)
    ensures Leads(s, [], s)
  {
  }

  lemma First(s: Server, a: Step, s1: Server, steps: seq<Step>, t: Server)
    requires Enabled(s, a) && Apply(s, a) == s1 && Leads(s1, steps, t)
    ensures Leads(s, [a] + steps, t)
  {
    assert ([a] + steps)[1..] == steps;
  }

  /** A poll may report any watched connection of its loop, with any mask but a hang-up
      with priority data and no input. */
  lemma ReportableIff(s: Server, l: LoopId, c: ConnId, m: R.Mask)
    ensures Reportable(s, l, [Ready(c, m)]) <==>
      && c in s.conns && s.conns[c].loop == l && s.conns[c].conn.reg.kernel.Some?
      && !(m.hup && m.pri && !m.input)
  {
    assert [Ready(c, m)][0] == Ready(c, m);
  }

  // ------------------------------------------------------------------ single steps

  lemma PollsMain(sub: Loop, e: Entry, known: set<ConnId>)
    ensures var s := World(Loop(Polling, [RemoveInLoop(0)], []), sub, e, known, map[]);
      Enabled(s, Poll(0, []))
      && Apply(s, Poll(0, [])) == World(Loop(Dispatching([]), [RemoveInLoop(0)], []), sub, e, known, map[])
  {
  }

  lemma BeginsMain(sub: Loop, e: Entry, known: set<ConnId>)
    ensures var s := World(Loop(Dispatching([]), [RemoveInLoop(0)], []), sub, e, known, map[]);
      Enabled(s, BeginFunctors(0))
      && Apply(s, BeginFunctors(0)) == World(Loop(Calling, [], [RemoveInLoop(0)]), sub, e, known, map[])
  {
  }

  lemma RemovesMain(e: Entry)
    requires e.loop == 1
    ensures var s := World(Loop(Calling, [], [RemoveInLoop(0)]), Loop(Dispatching([]), [], []), e, {0}, map[]);
      var a := RunFunctor(0, [], Wrote(0));
      Enabled(s, a)
      && Apply(s, a) == World(Loop(Calling, [], []), Loop(Dispatching([]), [Destroy(0)], []), e.(phase := Dying), {}, map[])
  {
    assert [RemoveInLoop(0)][1..] == [] && [] + [Destroy(0)] == [Destroy(0)];
    var s := World(Loop(Calling, [], [RemoveInLoop(0)]), Loop(Dispatching([]), [], []), e, {0}, map[]);
    assert Apply(s, RunFunctor(0, [], Wrote(0))).loops[1] == Loop(Dispatching([]), [Destroy(0)], []);
  }

  lemma AcceptsSub(options: Options)
    ensures var s := Server(0, map[0 := Loop(Dispatching([Accept]), [], []), 1 := Idle], map[], {}, 0, map[]);
      var a := DispatchAccept(0, 1, options, []);
      Enabled(s, a)
      && Apply(s, a) == World(Main, Loop(Polling, [Establish(0)], []), Entry(1, Fresh(options), Establishing, 0, 0, []), {0}, map[])
  {
    assert [Accept][1..] == [] && [] + [Establish(0)] == [Establish(0)];
    var s := Server(0, map[0 := Loop(Dispatching([Accept]), [], []), 1 := Idle], map[], {}, 0, map[]);
    assert Apply(s, DispatchAccept(0, 1, options, [])).loops[1] == Loop(Polling, [Establish(0)], []);
  }

  lemma PostsSub(e: Entry, t: Tid, data: seq<Byte>)
    requires e.loop == 1
    ensures var s := World(Main, Loop(Dispatching([]), [], []), e, {0}, map[t := (0, data)]);
      Enabled(s, PostMessage(t))
      && Apply(s, PostMessage(t)) == World(Main, Loop(Dispatching([]), [Deliver(0, t, data)], []), e, {0}, map[])
  {
    assert [] + [Deliver(0, t, data)] == [Deliver(0, t, data)];
    var s := World(Main, Loop(Dispatching([]), [], []), e, {0}, map[t := (0, data)]);
    assert Apply(s, PostMessage(t)).loops[1] == Loop(Dispatching([]), [Deliver(0, t, data)], []);
  }

  lemma EventSub(e: Entry, io: IO, conn: Conn)
    requires e.loop == 1 && conn == HandleEvent(e.conn, R.IN, io)
    ensures var s := World(Main, Loop(Dispatching([Ready(0, R.IN)]), [], []), e, {0}, map[]);
      Enabled(s, Dispatch(1, io))
      && Apply(s, Dispatch(1, io)) == Handled(World(Main, Loop(Dispatching([]), [], []), e, {0}, map[]), 1, 0, conn)
  {
    assert [Ready(0, R.IN)][1..] == [];
  }

  lemma StaysSub(e: Entry, conn: Conn)
    requires conn.ledger.closeRequests <= e.conn.ledger.closeRequests
    ensures Handled(World(Main, Loop(Dispatching([]), [], []), e, {0}, map[]), 1, 0, conn)
         == World(Main, Loop(Dispatching([]), [], []), e.(conn := conn), {0}, map[])
  {
  }

  lemma ClosesSub(e: Entry, conn: Conn)
    requires conn.ledger.closeRequests > e.conn.ledger.closeRequests
    ensures Handled(World(Main, Loop(Dispatching([]), [], []), e, {0}, map[]), 1, 0, conn)
         == World(Loop(Dispatching([]), [RemoveInLoop(0)], []), Loop(Dispatching([]), [], []),
                  e.(conn := conn, phase := Closing), {0}, map[])
  {
    assert [] + [RemoveInLoop(0)] == [RemoveInLoop(0)];
    var s := World(Main, Loop(Dispatching([]), [], []), e, {0}, map[]);
    assert Handled(s, 1, 0, conn).loops[0] == Loop(Dispatching([]), [RemoveInLoop(0)], []);
  }

  lemma PollsSub(main: Loop, pending: seq<Functor>, e: Entry, active: seq<Item>)
    requires Reportable(World(main, Loop(Polling, pending, []), e, {0}, map[]), 1, active)
    ensures var s := World(main, Loop(Polling, pending, []), e, {0}, map[]);
      Enabled(s, Poll(1, active))
      && Apply(s, Poll(1, active)) == World(main, Loop(Dispatching(active), pending, []), e, {0}, map[])
  {
  }

  lemma BeginsSub(main: Loop, pending: seq<Functor>, e: Entry, known: set<ConnId>)
    ensures var s := World(main, Loop(Dispatching([]), pending, []), e, known, map[]);
      Enabled(s, BeginFunctors(1))
      && Apply(s, BeginFunctors(1)) == World(main, Loop(Calling, [], pending), e, known, map[])
  {
  }

  lemma RunsSub(main: Loop, f: Functor, e: Entry, known: set<ConnId>, w: WriteOutcome, e': Entry)
    requires f.c == 0 && !f.RemoveInLoop?
    requires match f
      case Establish(_) => e' == e.(conn := ConnectEstablished(e.conn, []), phase := Alive, established := e.established + 1)
      case Destroy(_) => e' == e.(conn := ConnectDestroyed(e.conn, []), phase := Destroyed, destroyed := e.destroyed + 1)
      case Deliver(_, t, data) => e' == e.(conn := SendInLoop(e.conn, Foreign(t), data, w))
      case _ => true
    ensures var s := World(main, Loop(Calling, [], [f]), e, known, map[]); var a := RunFunctor(1, [], w);
      Enabled(s, a) && Apply(s, a) == World(main, Loop(Calling, [], []), e', known, map[])
  {
    assert [f][1..] == [];
  }

  lemma EndsSub(main: Loop, e: Entry)
    ensures var s := World(main, Loop(Calling, [], []), e, {0}, map[]);
      Enabled(s, EndFunctors(1)) && Apply(s, EndFunctors(1)) == World(main, Idle, e, {0}, map[])
  {
  }

  // ------------------------------------------------------------- one life, backwards

  const Quiet := Options(false, false, 0)
  const Waiting := Entry(1, Fresh(Quiet), Establishing, 0, 0, [])
  const Up := Waiting.(conn := ConnectEstablished(Fresh(Quiet), []), phase := Alive, established := 1)
  const Echo := IO(Got([65]), Wrote(0), [SendInput(Wrote(1))], [])
  const Echoed := Up.(conn := HandleEvent(Up.conn, R.IN, Echo))
  const Called := Echoed.(calls := [Posted(9, [66])])
  const Sent9 := Called.(conn := SendInLoop(Called.conn, Foreign(9), [66], Wrote(1)))
  const End := IO(Got([]), Wrote(0), [], [])
  const Closed0 := Sent9.(conn := HandleEvent(Sent9.conn, R.IN, End), phase := Closing)
  const Gone0 := Closed0.(conn := ConnectDestroyed(Closed0.conn, []), phase := Destroyed, destroyed := 1)

  /** The connection's own story: UP, one byte echoed, one byte from another thread,
      end of file, DOWN. */
  lemma Story()
    ensures Live(Up.conn) && Live(Echoed.conn) && Live(Sent9.conn) && Closed(Closed0.conn) && Gone(Gone0.conn)
    ensures Closed0.conn.ledger.closeRequests > Sent9.conn.ledger.closeRequests
    ensures Echoed.conn.ledger.closeRequests <= Up.conn.ledger.closeRequests
    ensures Gone0.conn.net.wire == [65, 66] && Gone0.conn.output == [] && Gone0.conn.input == []
    ensures Gone0.conn.ledger.callbacks == [Connection(true), Message, Connection(false)]
  {
    EstablishGoesLive(Quiet, []);
    EstablishEffect(Quiet, []);
    EchoStory(Up.conn);
    SendStory(Echoed.conn);
    CloseStory(Sent9.conn);
    DestroyAfterClose(Closed0.conn, []);
  }

  lemma SendStory(c: Conn)
    requires Live(c) && c.output == [] && c.net.wire == [65]
    ensures var d := SendInLoop(c, Foreign(9), [66], Wrote(1));
      && Live(d) && d.output == [] && d.net.wire == [65, 66] && d.input == c.input
      && d.ledger.callbacks == c.ledger.callbacks && d.ledger.closeRequests == c.ledger.closeRequests
  {
    SendKeepsLive(c, Foreign(9), [66], Wrote(1));
    SendEffect(c, Foreign(9), [66], Wrote(1));
    assert [65] + [66][..1] == [65, 66] && [66][1..] == [];
  }

  lemma CloseStory(c: Conn)
    requires Live(c)
    ensures var d := HandleEvent(c, R.IN, End);
      && Closed(d) && d.net == c.net && d.output == c.output && d.input == c.input
      && d.ledger.callbacks == c.ledger.callbacks + [Connection(false)]
      && d.ledger.closeRequests > c.ledger.closeRequests
  {
    ReadableEffect(c, R.IN, End);
    ReadEffect(c, End);
    CloseEffect(c, []);
    CloseGoesClosed(c, []);
  }

  lemma EchoStory(c: Conn)
    requires c == JustUp(Quiet) && Live(c)
    ensures var d := HandleEvent(c, R.IN, Echo);
      && Live(d) && d.output == [] && d.input == [] && d.net.wire == [65] && d.net.shutdowns == 0
      && d.state == Connected && d.ledger.callbacks == [Connection(true), Message]
      && d.ledger.closeRequests == 0 && d.options == Quiet
  {
    ReadableEffect(c, R.IN, Echo);
    ReadEffect(c, Echo);
    var c1 := Call(Received(c, [65]), Message);
    assert Live(c1) && c1.input == [65];
    ScriptOfOne(c1, SendInput(Wrote(1)));
    SendInputEffect(c1, Wrote(1));
    ActKeepsLive(c1, SendInput(Wrote(1)));
    assert [65][..1] == [65] && [65][1..] == [];
  }

  lemma Accepted(options: Options) returns (steps: seq<Step>)
    ensures Leads(Empty, steps, World(Main, Loop(Polling, [Establish(0)], []),
                                      Entry(1, Fresh(options), Establishing, 0, 0, []), {0}, map[]))
  {
    var s1 := Empty.(loops := map[0 := Loop(Dispatching([Accept]), [], []), 1 := Idle]);
    var s2 := World(Main, Loop(Polling, [Establish(0)], []), Entry(1, Fresh(options), Establishing, 0, 0, []), {0}, map[]);
    assert Apply(Empty, Poll(0, [Accept])) == s1;
    AcceptsSub(options);
    Here(s2);
    First(s1, DispatchAccept(0, 1, options, []), s2, [], s2);
    steps := [DispatchAccept(0, 1, options, [])] + [];
    First(Empty, Poll(0, [Accept]), s1, steps, s2);
    steps := [Poll(0, [Accept])] + steps;
  }

  lemma Both(s: Server, first: seq<Step>, t: Server, rest: seq<Step>, u: Server) returns (steps: seq<Step>)
    requires Leads(s, first, t) && Leads(t, rest, u)
    ensures Leads(s, steps, u)
    decreases |first|
  {
    if first == [] {
      steps := rest;
    } else {
      var more := Both(Apply(s, first[0]), first[1..], t, rest, u);
      First(s, first[0], Apply(s, first[0]), more, u);
      steps := [first[0]] + more;
    }
  }

  /** The functor phase of the sub loop with one functor, from a dispatch just ended. */
  lemma Phase(main: Loop, f: Functor, e: Entry, w: WriteOutcome, e': Entry) returns (steps: seq<Step>)
    requires f.c == 0 && (f.Establish? || f.Deliver?)
    requires match f
      case Establish(_) => e' == e.(conn := ConnectEstablished(e.conn, []), phase := Alive, established := e.established + 1)
      case Deliver(_, t, data) => e' == e.(conn := SendInLoop(e.conn, Foreign(t), data, w))
      case _ => true
    ensures Leads(World(main, Loop(Dispatching([]), [f], []), e, {0}, map[]), steps, World(main, Idle, e', {0}, map[]))
  {
    var s0 := World(main, Loop(Dispatching([]), [f], []), e, {0}, map[]);
    var s1 := World(main, Loop(Calling, [], [f]), e, {0}, map[]);
    var s2 := World(main, Loop(Calling, [], []), e', {0}, map[]);
    var s3 := World(main, Idle, e', {0}, map[]);
    BeginsSub(main, [f], e, {0});
    RunsSub(main, f, e, {0}, w, e');
    EndsSub(main, e');
    Here(s3);
    First(s2, EndFunctors(1), s3, [], s3);
    First(s1, RunFunctor(1, [], w), s2, [EndFunctors(1)] + [], s3);
    steps := [RunFunctor(1, [], w)] + ([EndFunctors(1)] + []);
    First(s0, BeginFunctors(1), s1, steps, s3);
    steps := [BeginFunctors(1)] + steps;
  }

  lemma Established(e: Entry, e': Entry) returns (steps: seq<Step>)
    requires e' == e.(conn := ConnectEstablished(e.conn, []), phase := Alive, established := e.established + 1)
    ensures Leads(World(Main, Loop(Polling, [Establish(0)], []), e, {0}, map[]), steps, World(Main, Idle, e', {0}, map[]))
  {
    PollsSub(Main, [Establish(0)], e, []);
    var rest := Phase(Main, Establish(0), e, Wrote(0), e');
    First(World(Main, Loop(Polling, [Establish(0)], []), e, {0}, map[]), Poll(1, []),
          World(Main, Loop(Dispatching([]), [Establish(0)], []), e, {0}, map[]), rest, World(Main, Idle, e', {0}, map[]));
    steps := [Poll(1, [])] + rest;
  }

  /** One event on the sub loop, from its poll to the end of its dispatch. */
  lemma Serves(e: Entry, io: IO, conn: Conn, t: Server) returns (steps: seq<Step>)
    requires e.loop == 1 && e.conn.reg.kernel.Some? && conn == HandleEvent(e.conn, R.IN, io)
    requires t == Handled(World(Main, Loop(Dispatching([]), [], []), e, {0}, map[]), 1, 0, conn)
    ensures Leads(World(Main, Idle, e, {0}, map[]), steps, t)
  {
    var item := Ready(0, R.IN);
    var s1 := World(Main, Loop(Dispatching([item]), [], []), e, {0}, map[]);
    PollsSub(Main, [], e, [item]);
    EventSub(e, io, conn);
    Here(t);
    First(s1, Dispatch(1, io), t, [], t);
    steps := [Dispatch(1, io)] + [];
    First(World(Main, Idle, e, {0}, map[]), Poll(1, [item]), s1, steps, t);
    steps := [Poll(1, [item])] + steps;
  }

  /** User code runs and does nothing; thread `u` sends a message. */
  lemma Sends(e: Entry, u: Tid, data: seq<Byte>, w: WriteOutcome, e1: Entry, e': Entry) returns (steps: seq<Step>)
    requires e.loop == 1 && u != 1 && e.established > 0 && e1 == e.(calls := e.calls + [Posted(u, data)])
    requires e' == e1.(conn := SendInLoop(e1.conn, Foreign(u), data, w))
    ensures Leads(World(Main, Loop(Dispatching([]), [], []), e, {0}, map[]), steps, World(Main, Idle, e', {0}, map[]))
  {
    var sub := Loop(Dispatching([]), [], []);
    var s0 := World(Main, sub, e, {0}, map[]);
    var s1 := World(Main, sub, e1, {0}, map[u := (0, data)]);
    var s2 := World(Main, Loop(Dispatching([]), [Deliver(0, u, data)], []), e1, {0}, map[]);
    var t := World(Main, Idle, e', {0}, map[]);
    var rest := Phase(Main, Deliver(0, u, data), e1, w, e');
    PostsSub(e1, u, data);
    First(s1, PostMessage(u), s2, rest, t);
    steps := [PostMessage(u)] + rest;
    assert Apply(s0, CheckState(u, 0, data)) == s1;
    First(s0, CheckState(u, 0, data), s1, steps, t);
    steps := [CheckState(u, 0, data)] + steps;
    assert Apply(s0, UserCode(1, 0, [])) == s0;
    First(s0, UserCode(1, 0, []), s0, steps, t);
    steps := [UserCode(1, 0, [])] + steps;
  }

  lemma Dies(e: Entry, e': Entry) returns (steps: seq<Step>)
    requires e.loop == 1
    requires e' == e.(conn := ConnectDestroyed(e.conn, []), phase := Destroyed, destroyed := e.destroyed + 1)
    ensures Leads(World(Loop(Dispatching([]), [RemoveInLoop(0)], []), Loop(Dispatching([]), [], []), e, {0}, map[]),
                  steps, World(Loop(Calling, [], []), Loop(Calling, [], []), e', {}, map[]))
  {
    var sub := Loop(Dispatching([]), [], []);
    var dying := e.(phase := Dying);
    var s0 := World(Loop(Dispatching([]), [RemoveInLoop(0)], []), sub, e, {0}, map[]);
    var s1 := World(Loop(Calling, [], [RemoveInLoop(0)]), sub, e, {0}, map[]);
    var s2 := World(Loop(Calling, [], []), Loop(Dispatching([]), [Destroy(0)], []), dying, {}, map[]);
    var s3 := World(Loop(Calling, [], []), Loop(Calling, [], [Destroy(0)]), dying, {}, map[]);
    var s4 := World(Loop(Calling, [], []), Loop(Calling, [], []), e', {}, map[]);
    BeginsMain(sub, e, {0});
    RemovesMain(e);
    BeginsSub(Loop(Calling, [], []), [Destroy(0)], dying, {});
    RunsSub(Loop(Calling, [], []), Destroy(0), dying, {}, Wrote(0), e');
    Here(s4);
    First(s3, RunFunctor(1, [], Wrote(0)), s4, [], s4);
    steps := [RunFunctor(1, [], Wrote(0))] + [];
    First(s2, BeginFunctors(1), s3, steps, s4);
    steps := [BeginFunctors(1)] + steps;
    First(s1, RunFunctor(0, [], Wrote(0)), s2, steps, s4);
    steps := [RunFunctor(0, [], Wrote(0))] + steps;
    First(s0, BeginFunctors(0), s1, steps, s4);
    steps := [BeginFunctors(0)] + steps;
  }

  /** The pieces of one life, put together. */
  lemma LifeOf(options: Options, e0: Entry, up: Entry, echoed: Entry, called: Entry, sent: Entry, closed: Entry, gone: Entry,
               w: WriteOutcome) returns (steps: seq<Step>)
    requires e0 == Entry(1, Fresh(options), Establishing, 0, 0, [])
    requires up == e0.(conn := ConnectEstablished(e0.conn, []), phase := Alive, established := 1)
    requires up.conn.reg.kernel.Some? && echoed == up.(conn := HandleEvent(up.conn, R.IN, Echo))
    requires echoed.conn.ledger.closeRequests <= up.conn.ledger.closeRequests
    requires called == echoed.(calls := echoed.calls + [Posted(9, [66])])
    requires sent == called.(conn := SendInLoop(called.conn, Foreign(9), [66], w)) && sent.conn.reg.kernel.Some?
    requires closed == sent.(conn := HandleEvent(sent.conn, R.IN, End), phase := Closing)
    requires closed.conn.ledger.closeRequests > sent.conn.ledger.closeRequests
    requires gone == closed.(conn := ConnectDestroyed(closed.conn, []), phase := Destroyed, destroyed := 1)
    ensures Leads(Empty, steps, World(Loop(Calling, [], []), Loop(Calling, [], []), gone, {}, map[]))
  {
    steps := Accepted(options);
    var t := World(Main, Loop(Polling, [Establish(0)], []), e0, {0}, map[]);
    var more := Established(e0, up);
    var u := World(Main, Idle, up, {0}, map[]);
    steps := Both(Empty, steps, t, more, u);
    StaysSub(up, echoed.conn);
    t := World(Main, Loop(Dispatching([]), [], []), echoed, {0}, map[]);
    more := Serves(up, Echo, echoed.conn, t);
    steps := Both(Empty, steps, u, more, t);
    u := World(Main, Idle, sent, {0}, map[]);
    more := Sends(echoed, 9, [66], w, called, sent);
    steps := Both(Empty, steps, t, more, u);
    ClosesSub(sent, closed.conn);
    t := World(Loop(Dispatching([]), [RemoveInLoop(0)], []), Loop(Dispatching([]), [], []), closed, {0}, map[]);
    more := Serves(sent, End, closed.conn, t);
    steps := Both(Empty, steps, u, more, t);
    u := World(Loop(Calling, [], []), Loop(Calling, [], []), gone, {}, map[]);
    more := Dies(closed, gone);
    steps := Both(Empty, steps, t, more, u);
  }

  lemma EndsWith(steps: seq<Step>, gone: Entry)
    requires Leads(Empty, steps, World(Loop(Calling, [], []), Loop(Calling, [], []), gone, {}, map[]))
    ensures var s := Run(Empty, steps);
      IsStart(Empty) && LegalRun(Empty, steps) && 0 in s.conns && s.conns[0] == gone && 0 !in s.connections
  {
  }

  /** A run that ends with the connection `e`, destroyed and out of the server's map. */
  ghost predicate EndsIn(e: Entry) {
    exists steps ::
      && IsStart(Empty) && LegalRun(Empty, steps)
      && var s := Run(Empty, steps); 0 in s.conns && s.conns[0] == e && 0 !in s.connections
  }

  lemma LifeEnds()
    ensures EndsIn(Gone0)
  {
    Story();
    var steps := LifeOf(Quiet, Waiting, Up, Echoed, Called, Sent9, Closed0, Gone0, Wrote(1));
    EndsWith(steps, Gone0);
  }

  /** Some run takes a connection through its whole life on another loop: accepted,
      established, a byte echoed, a byte sent by another thread, closed by its peer,
      removed and destroyed, all its bytes on the wire. */
  lemma WholeLife()
    ensures exists e ::
      && EndsIn(e) && e.phase == Destroyed && e.established == 1 && e.destroyed == 1
      && e.conn.net.wire == [65, 66]
      && e.conn.ledger.callbacks == [Connection(true), Message, Connection(false)]
  {
    Story();
    LifeEnds();
    assert EndsIn(Gone0);
  }
}
