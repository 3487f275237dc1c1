/** Statements over whole runs of a connection. */
module ConnectionRuns {
  import opened Basics
  import opened ConnectionModel
  import opened ConnectionTheorems
  import R = Registration

  /** One thing the loop thread does with a connection: dispatch an event that the
      kernel reported, run a functor that another thread posted through `Send`, or
      run user code (a queued task, or a callback of some other connection). */
  datatype Step =
    | Dispatch(revents: R.Mask, io: IO)
    | RunFunctor(sender: nat, data: seq<Byte>, w: WriteOutcome)
    | UserCode(script: seq<Action>)

  /** Events come only for fds in the kernel's list. */
  predicate Legal(c: Conn, s: Step) {
    s.Dispatch? ==> c.reg.kernel.Some? && !ClosesThenReads(s.revents)
  }

  function Apply(c: Conn, s: Step): Conn {
    match s
    case Dispatch(revents, io) => HandleEvent(c, revents, io)
    case RunFunctor(sender, data, w) => SendInLoop(c, Foreign(sender), data, w)
    case UserCode(script) => RunScript(c, script)
  }

  predicate LegalRun(c: Conn, steps: seq<Step>)
    decreases |steps|
  {
    steps != [] ==> Legal(c, steps[0]) && LegalRun(Apply(c, steps[0]), steps[1..])
  }

  function Run(c: Conn, steps: seq<Step>): Conn
    decreases |steps|
  {
    if steps == [] then c else Run(Apply(c, steps[0]), steps[1..])
  }

  ghost predicate Reachable(c: Conn, options: Options) {
    exists onUp, steps :: ReachedBy(c, options, onUp, steps)
  }

  ghost predicate ReachedBy(c: Conn, options: Options, onUp: seq<Action>, steps: seq<Step>) {
    var start := ConnectEstablished(Fresh(options), onUp);
    LegalRun(start, steps) && c == Run(start, steps)
  }

  lemma StepKeeps(c: Conn, s: Step)
    requires (Live(c) || Closed(c)) && Legal(c, s)
    ensures Live(Apply(c, s)) || Closed(Apply(c, s))
    ensures Apply(c, s).options == c.options
  {
    match s
    case Dispatch(revents, io) =>
      EventKeeps(c, revents, io);
      EventOptions(c, revents, io);
    case RunFunctor(sender, data, w) =>
      if Live(c) {
        SendKeepsLive(c, Foreign(sender), data, w);
        SendEffect(c, Foreign(sender), data, w);
      } else {
        SendOnClosed(c, Foreign(sender), data, w);
      }
    case UserCode(script) =>
      ScriptOptions(c, script);
      if Live(c) { ScriptKeepsLive(c, script); } else { ScriptOnClosed(c, script); }
  }

  lemma SendOptions(c: Conn, who: Sender, data: seq<Byte>, w: WriteOutcome)
    ensures SendInLoop(c, who, data, w).options == c.options
  {
  }

  lemma {:induction false} ScriptOptions(c: Conn, script: seq<Action>)
    ensures RunScript(c, script).options == c.options
    decreases |script|
  {
    if script != [] {
      match script[0] {
        case Send(data, w) => SendOptions(c, LoopThread, data, w);
        case SendInput(w) => SendOptions(c, LoopThread, c.input, w);
        case Shutdown =>
        case Consume(_) =>
      }
      ScriptOptions(Act(c, script[0]), script[1..]);
    }
  }

  lemma CloseOptions(c: Conn, script: seq<Action>)
    ensures HandleClose(c, script).options == c.options
  {
    var c1 := c.(state := Disconnected, reg := R.DisableAll(c.reg));
    ScriptOptions(Call(c1, Connection(false)), script);
  }

  lemma ReadOptions(c: Conn, io: IO)
    ensures HandleRead(c, io).options == c.options
  {
    if io.read.Got? {
      var bytes := io.read.bytes;
      var r := Received(c, bytes);
      if |bytes| > 0 { ScriptOptions(Call(r, Message), io.onMessage); } else { CloseOptions(r, io.onClose); }
    }
  }

  lemma EventOptions(c: Conn, revents: R.Mask, io: IO)
    ensures HandleEvent(c, revents, io).options == c.options
  {
    var c1 := if revents.hup && !revents.input then HandleClose(c, io.onClose) else c;
    CloseOptions(c, io.onClose);
    ReadOptions(c1, io);
  }

  lemma {:induction false} RunKeeps(c: Conn, steps: seq<Step>)
    requires (Live(c) || Closed(c)) && LegalRun(c, steps)
    ensures Live(Run(c, steps)) || Closed(Run(c, steps))
    ensures Run(c, steps).options == c.options
    decreases |steps|
  {
    if steps != [] {
      StepKeeps(c, steps[0]);
      RunKeeps(Apply(c, steps[0]), steps[1..]);
    }
  }

  lemma ReachableKeeps(c: Conn, options: Options)
    requires Reachable(c, options)
    ensures (Live(c) || Closed(c)) && c.options == options
  {
    var onUp, steps :| ReachedBy(c, options, onUp, steps);
    EstablishGoesLive(options, onUp);
    var f := Fresh(options);
    ScriptOptions(Call(f.(state := Connected, reg := R.EnableReading(f.reg)), Connection(true)), onUp);
    RunKeeps(ConnectEstablished(f, onUp), steps);
  }

  // ------------------------------------------------------------- main statements

  /** No byte of an accepted message is lost, repeated or reordered. */
  lemma StreamIntegrity(c: Conn, options: Options)
    requires Reachable(c, options)
    ensures c.net.wire + c.output == AcceptedBytes(c.ledger.log)
  {
    ReachableKeeps(c, options);
  }

  /** Until the connection closes, the kernel watches for input always and for
      output exactly while bytes are waiting; afterwards it watches nothing. */
  lemma KernelInterest(c: Conn, options: Options)
    requires Reachable(c, options)
    ensures (c.state == Connected || c.state == Disconnecting) ==>
              c.reg.kernel == Some(if c.output == [] then R.READ_EVENT else R.READ_EVENT.Or(R.WRITE_EVENT))
              && R.InterestBits(c.reg.kernel.value, c.output != [])
    ensures c.state == Disconnected ==> c.reg.kernel == None
    ensures c.state != Connecting
  {
    ReachableKeeps(c, options);
  }

  /** User code sees one UP, then messages, then at most one DOWN and nothing after. */
  lemma CallbackOrder(c: Conn, options: Options)
    requires Reachable(c, options)
    ensures var t := c.ledger.callbacks;
      && |t| > 0 && t[0] == Connection(true)
      && (forall i :: 1 <= i < |t| - 1 ==> t[i] == Message)
      && (|t| > 1 ==> (t[|t| - 1] == Connection(false) <==> c.state == Disconnected))
      && (|t| > 1 && c.state != Disconnected ==> t[|t| - 1] == Message)
      && (c.state == Disconnected ==> |t| > 1)
  {
    ReachableKeeps(c, options);
    var t := c.ledger.callbacks;
    if Closed(c) {
      forall i | 1 <= i < |t| - 1 ensures t[i] == Message {
        assert t[..|t| - 1][i] == t[i];
      }
      assert t[..|t| - 1][0] == t[0];
    }
  }

  /** High-water callbacks are exactly the upward crossings of the mark, and
      between two of them a drain took the length back below it. */
  lemma HighWaterCrossings(c: Conn, options: Options)
    requires Reachable(c, options)
    ensures c.options == options && CrossingsCounted(c)
  {
    ReachableKeeps(c, options);
    WaterCounts(c);
  }

  ghost predicate CrossingsCounted(c: Conn) {
    var ds, mark := c.ledger.depths, c.options.mark;
    && HighWaterCalls(c.ledger.queued) == (if c.options.highWater then Crossings(ds, mark) else 0)
    && forall i, j :: i < j && CrossesAt(ds, mark, i) && CrossesAt(ds, mark, j) ==>
         exists k :: i < k < j && FallsAt(ds, mark, k)
  }

  lemma WaterCounts(c: Conn)
    requires Water(c)
    ensures CrossingsCounted(c)
  {
    var ds, mark := c.ledger.depths, c.options.mark;
    forall i, j | i < j && CrossesAt(ds, mark, i) && CrossesAt(ds, mark, j)
      ensures exists k :: i < k < j && FallsAt(ds, mark, k)
    {
      var k := FindFall(ds, mark, i, j - 1);
      assert i < k < j && FallsAt(ds, mark, k);
    }
  }

  /** A `HandleWrite` that took the length from the mark or above to below it. */
  predicate FallsAt(ds: seq<Depth>, mark: nat, k: int) {
    1 <= k < |ds| && ds[k].drain && ds[k].len < mark <= ds[k - 1].len
  }

  lemma {:induction false} FindFall(ds: seq<Depth>, mark: nat, lo: int, hi: int) returns (k: int)
    requires 0 <= lo <= hi < |ds| && ds[hi].len < mark <= ds[lo].len
    requires forall i :: 1 <= i < |ds| ==> if ds[i].drain then ds[i].len <= ds[i - 1].len else ds[i - 1].len <= ds[i].len
    ensures lo < k <= hi && FallsAt(ds, mark, k)
    decreases hi - lo
  {
    if ds[lo + 1].len < mark {
      k := lo + 1;
    } else {
      k := FindFall(ds, mark, lo + 1, hi);
    }
  }

  // ------------------------------------------------------------------ half-close

  /** A functor of another thread runs on a connection that is still open although its
      write half is already shut. */
  predicate TooLate(c: Conn, s: Step) {
    s.RunFunctor? && c.state == Disconnecting && c.output == []
  }

  predicate Graceful(c: Conn, steps: seq<Step>)
    decreases |steps|
  {
    steps != [] ==> !TooLate(c, steps[0]) && Graceful(Apply(c, steps[0]), steps[1..])
  }

  lemma StepHalfClose(c: Conn, s: Step)
    requires (Live(c) || Closed(c)) && HalfClose(c) && Legal(c, s)
    ensures if TooLate(c, s) then Apply(c, s).net.lateWrites > 0 else HalfClose(Apply(c, s))
  {
    match s
    case Dispatch(revents, io) => EventKeeps(c, revents, io);
    case RunFunctor(sender, data, w) =>
      if Live(c) {
        LateWriteIff(c, Foreign(sender), data, w);
        SendEffect(c, Foreign(sender), data, w);
      }
    case UserCode(script) =>
      if Live(c) { ScriptKeepsLive(c, script); } else { ScriptOnClosed(c, script); }
  }

  /** When `Send` and `Shutdown` are called on the loop thread, the write half is shut
      at most once, only with every accepted byte on the wire, and no write follows.
      With functors of other threads in play this holds exactly when none of them
      runs after the shutdown while the connection is still open. */
  lemma {:induction false} HalfCloseRun(c: Conn, steps: seq<Step>)
    requires (Live(c) || Closed(c)) && HalfClose(c) && LegalRun(c, steps)
    ensures Graceful(c, steps) ==> HalfClose(Run(c, steps))
    ensures Run(c, steps).net.lateWrites == 0 <==> Graceful(c, steps)
    decreases |steps|
  {
    if steps != [] {
      var s := steps[0];
      StepKeeps(c, s);
      StepHalfClose(c, s);
      if TooLate(c, s) {
        LateWritesStay(Apply(c, s), steps[1..]);
      } else {
        HalfCloseRun(Apply(c, s), steps[1..]);
      }
    }
  }

  lemma GracefulShutdown(options: Options, onUp: seq<Action>, steps: seq<Step>)
    requires LegalRun(ConnectEstablished(Fresh(options), onUp), steps)
    requires Graceful(ConnectEstablished(Fresh(options), onUp), steps)
    ensures var c := Run(ConnectEstablished(Fresh(options), onUp), steps);
      && c.net.shutdowns <= 1 && c.net.lateWrites == 0
      && (c.net.shutdowns == 1 ==> c.output == [] && c.net.wire == AcceptedBytes(c.ledger.log))
      && (c.state == Disconnecting && c.output == [] ==> c.net.shutdowns == 1)
  {
    var c0 := ConnectEstablished(Fresh(options), onUp);
    EstablishGoesLive(options, onUp);
    HalfCloseRun(c0, steps);
    RunKeeps(c0, steps);
    var c := Run(c0, steps);
    assert Stream(c);
  }

  /** Another thread's message, accepted before `Shutdown`, can be written after the
      write half was shut: its functor was posted while still connected. */
  lemma ForeignSendCanBeLate()
    ensures exists steps ::
      var c := ConnectEstablished(Fresh(Options(false, false, 0)), []);
      LegalRun(c, steps) && Run(c, steps).net.lateWrites > 0
  {
    var c := ConnectEstablished(Fresh(Options(false, false, 0)), []);
    EstablishGoesLive(Options(false, false, 0), []);
    var shut, late := UserCode([Shutdown]), RunFunctor(0, [65], WriteFailed(BrokenPipe));
    var c1 := Apply(c, shut);
    ShutsAtOnce(c);
    assert TooLate(c1, late);
    StepHalfClose(c1, late);
    Prepend(c1, late, []);
    Prepend(c, shut, [late]);
  }

  lemma ShutsAtOnce(c: Conn)
    requires Live(c) && HalfClose(c) && c.state == Connected && c.output == []
    ensures var d := RunScript(c, [Shutdown]);
      Live(d) && HalfClose(d) && d.state == Disconnecting && d.output == []
  {
    ScriptKeepsLive(c, [Shutdown]);
    assert [Shutdown][1..] == [];
    assert RunScript(c, [Shutdown]) == RunScript(Act(c, Shutdown), []);
  }

  lemma Prepend(c: Conn, s: Step, steps: seq<Step>)
    requires Legal(c, s) && LegalRun(Apply(c, s), steps)
    ensures LegalRun(c, [s] + steps) && Run(c, [s] + steps) == Run(Apply(c, s), steps)
  {
    assert ([s] + steps)[1..] == steps;
  }

  lemma {:induction false} LateWritesStay(c: Conn, steps: seq<Step>)
    ensures Run(c, steps).net.lateWrites >= c.net.lateWrites
    decreases |steps|
  {
    if steps != [] {
      match steps[0] {
        case Dispatch(revents, io) => EventLate(c, revents, io);
        case RunFunctor(sender, data, w) => SendLate(c, Foreign(sender), data, w);
        case UserCode(script) => ScriptLate(c, script);
      }
      LateWritesStay(Apply(c, steps[0]), steps[1..]);
    }
  }

  lemma SendLate(c: Conn, who: Sender, data: seq<Byte>, w: WriteOutcome)
    ensures SendInLoop(c, who, data, w).net.lateWrites >= c.net.lateWrites
  {
  }

  lemma {:induction false} ScriptLate(c: Conn, script: seq<Action>)
    ensures RunScript(c, script).net.lateWrites >= c.net.lateWrites
    decreases |script|
  {
    if script != [] {
      match script[0] {
        case Send(data, w) => SendLate(c, LoopThread, data, w);
        case SendInput(w) => SendLate(c, LoopThread, c.input, w);
        case Shutdown =>
        case Consume(_) =>
      }
      ScriptLate(Act(c, script[0]), script[1..]);
    }
  }

  lemma CloseLate(c: Conn, script: seq<Action>)
    ensures HandleClose(c, script).net.lateWrites >= c.net.lateWrites
  {
    var c1 := c.(state := Disconnected, reg := R.DisableAll(c.reg));
    ScriptLate(Call(c1, Connection(false)), script);
  }

  lemma ReadLate(c: Conn, io: IO)
    ensures HandleRead(c, io).net.lateWrites >= c.net.lateWrites
  {
    if io.read.Got? {
      var bytes := io.read.bytes;
      var r := Received(c, bytes);
      if |bytes| > 0 { ScriptLate(Call(r, Message), io.onMessage); } else { CloseLate(r, io.onClose); }
    }
  }

  lemma EventLate(c: Conn, revents: R.Mask, io: IO)
    ensures HandleEvent(c, revents, io).net.lateWrites >= c.net.lateWrites
  {
    var c1 := if revents.hup && !revents.input then HandleClose(c, io.onClose) else c;
    CloseLate(c, io.onClose);
    ReadLate(c1, io);
  }

  // ----------------------------------------------------------------------- drain

  /** Writable events one after another, with no send and no close between them. */
  function Drain(c: Conn, ws: seq<WriteOutcome>): Conn
    decreases |ws|
  {
    if ws == [] then c else Drain(HandleWrite(c, ws[0]), ws[1..])
  }

  /** How many bytes the kernel is ready to take over these events. */
  function Offered(ws: seq<WriteOutcome>): nat {
    if ws == [] then 0 else (if ws[0].Wrote? then ws[0].n else 0) + Offered(ws[1..])
  }

  /** Waiting output is gone exactly when the kernel has offered to take that much;
      then everything is on the wire, interest is back to reading, write-complete
      has been queued once, and a disconnecting connection has shut its write half. */
  lemma {:induction false} DrainIff(c: Conn, ws: seq<WriteOutcome>)
    requires Live(c) && c.output != []
    ensures var d := Drain(c, ws);
      && (d.output == [] <==> Offered(ws) >= |c.output|)
      && d.net.wire + d.output == c.net.wire + c.output && d.state == c.state
      && (d.output == [] ==>
            && d.reg.kernel == Some(R.READ_EVENT)
            && d.ledger.queued == c.ledger.queued + (if c.options.writeComplete then [WriteComplete] else [])
            && d.net.shutdowns == c.net.shutdowns + (if c.state == Disconnecting then 1 else 0))
    decreases |ws|
  {
    if ws != [] {
      var c1 := HandleWrite(c, ws[0]);
      WriteEffect(c, ws[0]);
      WriteKeepsLive(c, ws[0]);
      Unsplice(c.net.wire, c.output, ws[0].Taken(|c.output|));
      if c1.output == [] {
        DrainIdle(c1, ws[1..]);
      } else {
        assert c1.ledger.queued == c.ledger.queued;
        DrainIff(c1, ws[1..]);
      }
    }
  }

  lemma {:induction false} DrainIdle(c: Conn, ws: seq<WriteOutcome>)
    requires Live(c) && c.output == []
    ensures Drain(c, ws) == c
    decreases |ws|
  {
    if ws != [] {
      R.WantedMasks(c.reg, false);
      DrainIdle(c, ws[1..]);
    }
  }

  /** In particular `|c.output|` events that each take at least one byte suffice. */
  lemma DrainTerminates(c: Conn, ws: seq<WriteOutcome>)
    requires Live(c) && c.output != []
    requires |ws| >= |c.output| && forall i :: 0 <= i < |ws| ==> ws[i].Wrote? && ws[i].n > 0
    ensures Drain(c, ws).output == [] && Drain(c, ws).reg.kernel == Some(R.READ_EVENT)
  {
    OfferedAtLeast(ws);
    DrainIff(c, ws);
  }

  lemma {:induction false} OfferedAtLeast(ws: seq<WriteOutcome>)
    requires forall i :: 0 <= i < |ws| ==> ws[i].Wrote? && ws[i].n > 0
    ensures Offered(ws) >= |ws|
  {
    if ws != [] { OfferedAtLeast(ws[1..]); }
  }
}
