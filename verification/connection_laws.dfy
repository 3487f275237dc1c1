/** Laws over whole runs of a connection that follow what goes in, what goes out and
    what user code has asked for. */
module ConnectionLaws {
  import opened Basics
  import opened ConnectionModel
  import opened ConnectionTheorems
  import opened ConnectionRuns
  import opened ConnectionEffects
  import Kernel
  import R = Registration

  /** Runs admit every event of a watched connection but a hang-up with priority data
      and no input, every message and all user code. */
  lemma LegalIff(c: Conn, s: Step)
    ensures Legal(c, s) <==>
      (s.Dispatch? ==> c.reg.kernel.Some? && !(s.revents.hup && s.revents.pri && !s.revents.input))
  {
  }

  // ----------------------------------------------------------------------- input

  /** Every byte read from the fd has been taken out by user code, in order, or waits
      in the input buffer. */
  predicate InputKept(c: Conn) {
    c.ledger.received == c.ledger.taken + c.input
  }

  /** Neither input nor what is noted about it differs. */
  predicate SameInput(c: Conn, d: Conn) {
    d.input == c.input && d.ledger.received == c.ledger.received && d.ledger.taken == c.ledger.taken
  }

  lemma BufferInputKept(c: Conn, rest: seq<Byte>)
    ensures SameInput(c, BufferRest(c, rest))
  {
  }

  lemma DirectInputKept(c: Conn, who: Sender, data: seq<Byte>, w: WriteOutcome)
    ensures SameInput(c, SendDirect(c, who, data, w))
  {
    var rest := data[w.Taken(|data|)..];
    var c1 := c.(net := Kernel.OnWrite(c.net, data, w));
    BufferInputKept(c1, rest);
    BufferInputKept(Queue(c1, WriteComplete), rest);
  }

  lemma SendInputKept(c: Conn, who: Sender, data: seq<Byte>, w: WriteOutcome)
    ensures SameInput(c, SendInLoop(c, who, data, w))
  {
    if WritesDirectly(c) { DirectInputKept(c, who, data, w); } else { BufferInputKept(c, data); }
  }

  lemma TakeInputKept(c: Conn, len: nat)
    requires InputKept(c)
    ensures InputKept(Take(c, len))
  {
    FrontAndRest(c.input, len);
    Regroup(c.ledger.taken, Front(c.input, len), Rest(c.input, len));
  }

  lemma Regroup(a: seq<Byte>, b: seq<Byte>, c: seq<Byte>)
    ensures (a + b) + c == a + (b + c)
  {
  }

  lemma TakeAllInputKept(c: Conn)
    requires InputKept(c)
    ensures InputKept(TakeAll(c))
  {
    assert (c.ledger.taken + c.input) + [] == c.ledger.taken + c.input;
  }

  lemma ActInputKept(c: Conn, a: Action)
    requires InputKept(c)
    ensures InputKept(Act(c, a)) && Act(c, a).ledger.received == c.ledger.received
  {
    match a
    case Send(data, w) => SendInputKept(c, LoopThread, data, w);
    case SendInput(w) =>
      SendInputKept(c, LoopThread, c.input, w);
      TakeAllInputKept(SendInLoop(c, LoopThread, c.input, w));
    case Shutdown =>
    case Consume(len) => TakeInputKept(c, len);
  }

  lemma {:induction false} ScriptInputKept(c: Conn, script: seq<Action>)
    requires InputKept(c)
    ensures InputKept(RunScript(c, script)) && RunScript(c, script).ledger.received == c.ledger.received
    decreases |script|
  {
    if script != [] {
      ActInputKept(c, script[0]);
      ScriptInputKept(Act(c, script[0]), script[1..]);
    }
  }

  lemma CloseInputKept(c: Conn, script: seq<Action>)
    requires InputKept(c)
    ensures InputKept(HandleClose(c, script)) && HandleClose(c, script).ledger.received == c.ledger.received
  {
    var c1 := Call(c.(state := Disconnected, reg := R.DisableAll(c.reg)), Connection(false));
    ScriptInputKept(c1, script);
  }

  lemma ReadInputKept(c: Conn, io: IO)
    requires InputKept(c)
    ensures InputKept(HandleRead(c, io))
    ensures HandleRead(c, io).ledger.received == c.ledger.received + (if io.read.Got? then io.read.bytes else [])
  {
    if io.read.Got? {
      var bytes := io.read.bytes;
      var r := Received(c, bytes);
      assert c.ledger.taken + (c.input + bytes) == (c.ledger.taken + c.input) + bytes;
      if bytes != [] { ScriptInputKept(Call(r, Message), io.onMessage); } else { CloseInputKept(r, io.onClose); }
    } else {
      assert c.ledger.received + [] == c.ledger.received;
    }
  }

  lemma WriteInputKept(c: Conn, w: WriteOutcome)
    requires InputKept(c)
    ensures InputKept(HandleWrite(c, w)) && HandleWrite(c, w).ledger.received == c.ledger.received
  {
  }

  /** The bytes that an event brings in: those of its read, if its mask asks for one. */
  function BroughtIn(m: R.Mask, io: IO): seq<Byte> {
    if (m.input || m.pri) && io.read.Got? then io.read.bytes else []
  }

  lemma EventInputKept(c: Conn, m: R.Mask, io: IO)
    requires InputKept(c)
    ensures InputKept(HandleEvent(c, m, io))
    ensures HandleEvent(c, m, io).ledger.received == c.ledger.received + BroughtIn(m, io)
  {
    var c1 := if m.hup && !m.input then HandleClose(c, io.onClose) else c;
    CloseInputKept(c, io.onClose);
    var c2 := if m.input || m.pri then HandleRead(c1, io) else c1;
    ReadInputKept(c1, io);
    WriteInputKept(c2, io.write);
    assert c.ledger.received + [] == c.ledger.received;
  }

  /** All bytes that the events of a run bring in, in order. */
  function AllBroughtIn(steps: seq<Step>): seq<Byte> {
    if steps == [] then []
    else (if steps[0].Dispatch? then BroughtIn(steps[0].revents, steps[0].io) else []) + AllBroughtIn(steps[1..])
  }

  lemma StepInputKept(c: Conn, s: Step)
    requires InputKept(c)
    ensures InputKept(Apply(c, s)) && Apply(c, s).ledger.received == c.ledger.received + AllBroughtIn([s])
  {
    assert [s][1..] == [];
    match s
    case Dispatch(m, io) => EventInputKept(c, m, io);
    case RunFunctor(sender, data, w) => SendInputKept(c, Foreign(sender), data, w);
    case UserCode(script) => ScriptInputKept(c, script);
  }

  lemma {:induction false} RunInputKept(c: Conn, steps: seq<Step>)
    requires InputKept(c)
    ensures InputKept(Run(c, steps)) && Run(c, steps).ledger.received == c.ledger.received + AllBroughtIn(steps)
    decreases |steps|
  {
    if steps == [] {
      assert c.ledger.received + [] == c.ledger.received;
    } else {
      StepInputKept(c, steps[0]);
      RunInputKept(Apply(c, steps[0]), steps[1..]);
      assert [steps[0]][1..] == [];
      assert AllBroughtIn([steps[0]]) + AllBroughtIn(steps[1..]) == AllBroughtIn(steps);
    }
  }

  /** From establishment, over every run: what the events have read is what user code
      has taken out followed by what waits in the input buffer. */
  lemma InputConserved(options: Options, onUp: seq<Action>, steps: seq<Step>)
    ensures var c := Run(ConnectEstablished(Fresh(options), onUp), steps);
      AllBroughtIn(steps) == c.ledger.taken + c.input
  {
    EstablishEffect(options, onUp);
    ScriptInputKept(JustUp(options), onUp);
    RunInputKept(ConnectEstablished(Fresh(options), onUp), steps);
    assert [] + AllBroughtIn(steps) == AllBroughtIn(steps);
  }

  // -------------------------------------------------------------------- shutdown

  lemma SendKeepsState(c: Conn, who: Sender, data: seq<Byte>, w: WriteOutcome)
    ensures SendInLoop(c, who, data, w).state == c.state
  {
  }

  /** A step never makes a connection connected. */
  lemma StepStaysShut(c: Conn, s: Step)
    requires (Live(c) || Closed(c)) && Legal(c, s) && c.state != Connected
    ensures Apply(c, s).state != Connected
  {
    match s
    case Dispatch(m, io) => EventStaysShut(c, m, io);
    case RunFunctor(sender, data, w) => SendKeepsState(c, Foreign(sender), data, w);
    case UserCode(script) =>
      if Live(c) { ScriptShutsIff(c, script); } else { ScriptOnClosed(c, script); }
  }

  lemma ReadStaysShut(c: Conn, io: IO)
    requires Live(c) && c.state == Disconnecting
    ensures HandleRead(c, io).state != Connected
  {
    ReadEffect(c, io);
    if io.read == Got([]) {
      CloseGoesClosed(c, io.onClose);
    } else if io.read.Got? {
      var c1 := Call(Received(c, io.read.bytes), Message);
      assert Live(c1);
      ScriptShutsIff(c1, io.onMessage);
    }
  }

  lemma EventStaysShut(c: Conn, m: R.Mask, io: IO)
    requires Live(c) && c.state == Disconnecting && !ClosesThenReads(m)
    ensures HandleEvent(c, m, io).state != Connected
  {
    if m.hup && !m.input {
      HangUpEffect(c, m, io);
      CloseGoesClosed(c, io.onClose);
    } else if m.input || m.pri {
      ReadableEffect(c, m, io);
      ReadStaysShut(c, io);
    } else {
      WritableEffect(c, m, io);
    }
  }

  lemma {:induction false} RunStaysShut(c: Conn, steps: seq<Step>)
    requires (Live(c) || Closed(c)) && LegalRun(c, steps) && c.state != Connected
    ensures Run(c, steps).state != Connected
    decreases |steps|
  {
    if steps != [] {
      StepKeeps(c, steps[0]);
      StepStaysShut(c, steps[0]);
      RunStaysShut(Apply(c, steps[0]), steps[1..]);
    }
  }

  /** User code that calls `Shutdown` on an open connection shuts it for good: it is
      never connected again, whatever happens; and while it is open with nothing left
      to send, the write half has been shut exactly once, with every accepted byte on
      the wire, provided no foreign functor has run too late. */
  lemma ShutdownIsFinal(c: Conn, script: seq<Action>, steps: seq<Step>)
    requires Live(c) && HalfClose(c) && c.state == Connected && Shutdown in script
    requires LegalRun(RunScript(c, script), steps)
    ensures var d := Run(RunScript(c, script), steps);
      && d.state != Connected
      && (Graceful(RunScript(c, script), steps) && d.state == Disconnecting && d.output == [] ==>
            d.net.shutdowns == 1 && d.net.wire == AcceptedBytes(d.ledger.log))
  {
    var c1 := RunScript(c, script);
    ScriptKeepsLive(c, script);
    ScriptShutsIff(c, script);
    RunStaysShut(c1, steps);
    RunKeeps(c1, steps);
    HalfCloseRun(c1, steps);
    var d := Run(c1, steps);
    assert Stream(d);
    assert d.output == [] ==> d.net.wire + d.output == d.net.wire;
  }

  // ----------------------------------------------------------------------- drain

  /** An event that reports that the fd is writable, and nothing else that is acted on. */
  predicate OnlyWritable(s: Step) {
    s.Dispatch? && s.revents.output && !s.revents.input && !s.revents.pri && !s.revents.hup
  }

  predicate AllWritable(steps: seq<Step>) {
    forall i :: 0 <= i < |steps| ==> OnlyWritable(steps[i])
  }

  /** What the kernel answers to the writes of these events. */
  function Answers(steps: seq<Step>): seq<WriteOutcome>
    requires AllWritable(steps)
  {
    if steps == [] then [] else [steps[0].io.write] + Answers(steps[1..])
  }

  lemma {:induction false} RunIsDrain(c: Conn, steps: seq<Step>)
    requires AllWritable(steps)
    ensures Run(c, steps) == Drain(c, Answers(steps))
    decreases |steps|
  {
    if steps != [] {
      assert Answers(steps)[1..] == Answers(steps[1..]);
      assert Apply(c, steps[0]) == HandleWrite(c, steps[0].io.write);
      RunIsDrain(Apply(c, steps[0]), steps[1..]);
    }
  }

  /** Dispatched writable events empty the output exactly when the kernel offers to
      take that much; then the kernel watches for input only, write-complete has been
      queued once, and a disconnecting connection has shut its write half. */
  lemma EventsDrainIff(c: Conn, steps: seq<Step>)
    requires Live(c) && c.output != [] && AllWritable(steps)
    ensures var d := Run(c, steps);
      && (d.output == [] <==> Offered(Answers(steps)) >= |c.output|)
      && d.net.wire + d.output == c.net.wire + c.output && d.state == c.state
      && (d.output == [] ==>
            && d.reg.kernel == Some(R.Mask(true, true, false, false, false))
            && d.ledger.queued == c.ledger.queued + (if c.options.writeComplete then [WriteComplete] else [])
            && d.net.shutdowns == c.net.shutdowns + (if c.state == Disconnecting then 1 else 0))
  {
    RunIsDrain(c, steps);
    DrainIff(c, Answers(steps));
    R.EstablishMask();
  }

  lemma {:induction false} AnswersTake(steps: seq<Step>)
    requires AllWritable(steps)
    requires forall i :: 0 <= i < |steps| ==> steps[i].io.write.Wrote? && steps[i].io.write.n > 0
    ensures Offered(Answers(steps)) >= |steps|
  {
    if steps != [] {
      AnswersTake(steps[1..]);
      assert Answers(steps)[1..] == Answers(steps[1..]);
    }
  }

  /** R waiting bytes are on the wire after R dispatched writable events that each take
      at least one; each of them is reported as long as bytes wait. */
  lemma EventsDrain(c: Conn, steps: seq<Step>)
    requires Live(c) && c.output != [] && AllWritable(steps) && |steps| >= |c.output|
    requires forall i :: 0 <= i < |steps| ==> steps[i].io.write.Wrote? && steps[i].io.write.n > 0
    ensures Run(c, steps).output == [] && Run(c, steps).net.wire == c.net.wire + c.output
    ensures LegalRun(c, steps)
  {
    AnswersTake(steps);
    EventsDrainIff(c, steps);
    WritableIsLegal(c, steps);
    var d := Run(c, steps);
    assert d.net.wire + d.output == d.net.wire;
  }

  lemma {:induction false} WritableIsLegal(c: Conn, steps: seq<Step>)
    requires Live(c) && AllWritable(steps)
    ensures LegalRun(c, steps)
    decreases |steps|
  {
    if steps != [] {
      WriteKeepsLive(c, steps[0].io.write);
      WritableIsLegal(Apply(c, steps[0]), steps[1..]);
    }
  }
}
