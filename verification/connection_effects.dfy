/** What each operation does to the fields of an open connection: the handlers, user
    code's calls, and a dispatched event, each from its inputs alone. */
module ConnectionEffects {
  import opened Basics
  import opened Kernel
  import opened ConnectionModel
  import opened ConnectionTheorems
  import R = Registration

  // ------------------------------------------------------------------- user code

  /** A connection that has just come up, when its callback is entered. */
  function JustUp(options: Options): Conn {
    Conn(Connected, [], [], LiveReg(false), options, Net([], 0, 0),
         Ledger([], [], [], [], [Connection(true)], 0, [Depth(0, false)]))
  }

  /** The connection callback runs on the connection that has just come up. */
  lemma EstablishEffect(options: Options, script: seq<Action>)
    ensures ConnectEstablished(Fresh(options), script) == RunScript(JustUp(options), script)
  {
    R.EstablishMask();
    var c := Fresh(options);
    var up := Call(c.(state := Connected, reg := R.EnableReading(c.reg)), Connection(true));
    assert [] + [Connection(true)] == [Connection(true)];
    assert up == JustUp(options);
  }

  /** The actions of a script run one after another, each once. */
  lemma {:induction false} ScriptIsSequence(c: Conn, first: seq<Action>, rest: seq<Action>)
    ensures RunScript(c, first + rest) == RunScript(RunScript(c, first), rest)
    decreases |first|
  {
    if first == [] {
      assert [] + rest == rest;
    } else {
      assert (first + rest)[1..] == first[1..] + rest;
      ScriptIsSequence(Act(c, first[0]), first[1..], rest);
    }
  }

  lemma ScriptOfOne(c: Conn, a: Action)
    ensures RunScript(c, [a]) == Act(c, a)
  {
    assert [a][1..] == [];
    assert RunScript(c, [a]) == RunScript(Act(c, a), []);
  }

  /** `Send` delivers its message while connected, and does nothing otherwise. */
  lemma SendActEffect(c: Conn, data: seq<Byte>, w: WriteOutcome)
    requires Live(c)
    ensures var d := Act(c, Send(data, w));
      if c.state == Connected then Delivered(c, LoopThread, data, w, d) else d == c
  {
    if c.state == Connected { SendEffect(c, LoopThread, data, w); }
  }

  /** `Send(Buffer*)` on the input buffer delivers all of it as one message and leaves
      it empty. */
  lemma SendInputEffect(c: Conn, w: WriteOutcome)
    requires Live(c)
    ensures var d := Act(c, SendInput(w));
      if c.state == Connected then
        && d.input == [] && d.ledger.taken == c.ledger.taken + c.input
        && Delivered(c, LoopThread, c.input, w,
                     d.(input := c.input, ledger := d.ledger.(taken := c.ledger.taken)))
      else d == c
  {
    if c.state == Connected { SendEffect(c, LoopThread, c.input, w); }
  }

  /** `Shutdown` of a connected connection: disconnecting from now on, nothing sent or
      lost, and the write half shut at once exactly when nothing waits. */
  lemma ShutdownEffect(c: Conn)
    requires Live(c)
    ensures var d := Act(c, Shutdown);
      if c.state == Connected then
        && d.state == Disconnecting
        && d.net == c.net.(shutdowns := c.net.shutdowns + (if c.output == [] then 1 else 0))
        && d == c.(state := Disconnecting, net := d.net)
      else d == c
  {
    R.WantedMasks(c.reg, c.output != []);
  }

  /** Retrieving takes a prefix out of the input buffer and touches nothing else. */
  lemma ConsumeEffect(c: Conn, len: nat)
    ensures var n := if len < |c.input| then len else |c.input|;
      Act(c, Consume(len))
      == c.(input := c.input[n..], ledger := c.ledger.(taken := c.ledger.taken + c.input[..n]))
  {
    FrontAndRest(c.input, len);
    RestIsSuffix(c.input, len);
  }

  /** A script shuts a connected connection exactly when it calls `Shutdown`. */
  lemma {:induction false} ScriptShutsIff(c: Conn, script: seq<Action>)
    requires Live(c)
    ensures RunScript(c, script).state
         == if c.state == Connected && Shutdown !in script then Connected else Disconnecting
    decreases |script|
  {
    if script != [] {
      var a := script[0];
      ActKeepsLive(c, a);
      match a {
        case Send(data, w) => SendActEffect(c, data, w);
        case SendInput(w) => SendInputEffect(c, w);
        case Shutdown => ShutdownEffect(c);
        case Consume(_) =>
      }
      ScriptShutsIff(Act(c, a), script[1..]);
    }
  }

  // --------------------------------------------------------------------- closing

  /** How many bytes a script asks to retrieve. */
  function Asked(script: seq<Action>): nat {
    if script == [] then 0
    else (if script[0].Consume? then script[0].len else 0) + Asked(script[1..])
  }

  /** On a closed connection a script does what its `Consume` actions say, and no more. */
  lemma {:induction false} ClosedScriptEffect(c: Conn, script: seq<Action>)
    requires c.state == Disconnected
    ensures RunScript(c, script) == Take(c, Asked(script))
    decreases |script|
  {
    if script == [] {
      assert c.ledger.taken + [] == c.ledger.taken;
    } else {
      var c1 := Act(c, script[0]);
      ClosedScriptEffect(c1, script[1..]);
      if script[0].Consume? {
        var a, b := script[0].len, Asked(script[1..]);
        TakenTwice(c.input, a, b);
        assert c.ledger.taken + Front(c.input, a) + Front(c1.input, b) == c.ledger.taken + Front(c.input, a + b);
      }
    }
  }

  /** Closing: out of the kernel, DOWN, the callback's retrievals, one request to be
      removed, and nothing else. */
  lemma CloseEffect(c: Conn, script: seq<Action>)
    requires Live(c)
    ensures HandleClose(c, script)
         == Take(c.(state := Disconnected, reg := ClosedReg,
                    ledger := c.ledger.(callbacks := c.ledger.callbacks + [Connection(false)], closeRequests := 1)),
                 Asked(script))
  {
    R.WantedMasks(c.reg, c.output != []);
    var c1 := Call(c.(state := Disconnected, reg := R.DisableAll(c.reg)), Connection(false));
    ClosedScriptEffect(c1, script);
  }

  /** Destroying an open connection, as a server that goes away does: user code is told
      exactly when it was connected; the channel is gone either way. */
  lemma DestroyOpenEffect(c: Conn, script: seq<Action>)
    requires Live(c)
    ensures var d := ConnectDestroyed(c, script);
      && d.reg.kernel == None && !d.reg.mapped && d.reg.index == R.NEW
      && (if c.state == Connected then
            d == Take(c.(state := Disconnected, reg := R.Unregistered,
                         ledger := c.ledger.(callbacks := c.ledger.callbacks + [Connection(false)])),
                      Asked(script))
          else d == c.(reg := d.reg))
  {
    R.WantedMasks(c.reg, c.output != []);
    if c.state == Connected {
      var c1 := Call(c.(state := Disconnected, reg := R.DisableAll(c.reg)), Connection(false));
      ClosedScriptEffect(c1, script);
    }
  }

  // --------------------------------------------------------------------- reading

  /** One read: the message callback finds the old input followed by the new bytes; at
      the end of file the connection closes; an error changes nothing. */
  lemma ReadEffect(c: Conn, io: IO)
    requires Live(c)
    ensures var d := HandleRead(c, io);
      match io.read
      case ReadFailed(_) => d == c
      case Got(bytes) =>
        if bytes == [] then d == HandleClose(c, io.onClose)
        else
          d == RunScript(c.(input := c.input + bytes,
                            ledger := c.ledger.(received := c.ledger.received + bytes,
                                                callbacks := c.ledger.callbacks + [Message])),
                         io.onMessage)
  {
    if io.read == Got([]) {
      assert c.input + [] == c.input && c.ledger.received + [] == c.ledger.received;
      assert Received(c, []) == c;
    }
  }

  // -------------------------------------------------------------------- an event

  /** What one writable event moves from the output buffer to the wire. */
  function Moved(c: Conn, w: WriteOutcome): nat {
    if w.Wrote? then Min(w.n, |c.output|) else 0
  }

  /** `d` is `c` after its waiting output was offered to the kernel once. */
  predicate OfferedOnce(c: Conn, w: WriteOutcome, d: Conn) {
    var n := Moved(c, w);
    && d.net.wire == c.net.wire + c.output[..n] && d.output == c.output[n..]
    && d.state == c.state && d.input == c.input && d.options == c.options
    && d.reg == LiveReg(d.output != [])
    && d.net.shutdowns == c.net.shutdowns + (if d.output == [] && c.state == Disconnecting then 1 else 0)
    && d.ledger == c.ledger.(queued := c.ledger.queued
                                 + (if d.output == [] && c.options.writeComplete then [WriteComplete] else []),
                             depths := c.ledger.depths + [Depth(|d.output|, true)])
  }

  lemma WriteMoves(c: Conn, w: WriteOutcome)
    requires Live(c)
    ensures var d := HandleWrite(c, w); if c.output == [] then d == c else OfferedOnce(c, w, d)
  {
    if c.output == [] {
      R.WantedMasks(c.reg, false);
    } else {
      WriteEffect(c, w);
    }
  }

  lemma WriteOnClosed(c: Conn, w: WriteOutcome)
    requires Closed(c)
    ensures HandleWrite(c, w) == c
  {
  }

  /** A hang-up without input closes, whatever else is reported but priority data. */
  lemma HangUpEffect(c: Conn, m: R.Mask, io: IO)
    requires Live(c) && m.hup && !m.input && !m.pri
    ensures HandleEvent(c, m, io) == HandleClose(c, io.onClose)
  {
    CloseGoesClosed(c, io.onClose);
    WriteOnClosed(HandleClose(c, io.onClose), io.write);
  }

  /** An event that neither hangs up nor reports input: a writable one offers the
      waiting output to the kernel once; any other changes nothing. */
  lemma WritableEffect(c: Conn, m: R.Mask, io: IO)
    requires Live(c) && !m.input && !m.pri && !m.hup
    ensures var d := HandleEvent(c, m, io);
      if m.output && c.output != [] then OfferedOnce(c, io.write, d) else d == c
  {
    if m.output { WriteMoves(c, io.write); }
  }

  /** An event with input: the read comes first, and a writable event then offers what
      waits after it, unless the read has closed the connection. */
  lemma ReadableEffect(c: Conn, m: R.Mask, io: IO)
    requires Live(c) && (m.input || (m.pri && !m.hup))
    ensures var c2, d := HandleRead(c, io), HandleEvent(c, m, io);
      if m.output && io.read != Got([]) && c2.output != [] then OfferedOnce(c2, io.write, d) else d == c2
  {
    var c2 := HandleRead(c, io);
    ReadKeeps(c, io);
    if m.output {
      if Live(c2) { WriteMoves(c2, io.write); } else { WriteOnClosed(c2, io.write); }
    }
  }
}
