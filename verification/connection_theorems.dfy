/** What every run of a connection keeps. */
module ConnectionTheorems {
  import opened Basics
  import opened Kernel
  import opened ConnectionModel
  import R = Registration

  // --------------------------------------------------------------- invariants

  /** Bytes taken by the kernel followed by the output buffer are the accepted
      messages, whole and in order. */
  predicate Stream(c: Conn) {
    c.net.wire + c.output == AcceptedBytes(c.ledger.log)
  }

  /** The depth record ends with the present length; sends never lower it, drains
      never raise it; and high-water tasks count the upward crossings. */
  ghost predicate Water(c: Conn) {
    var ds := c.ledger.depths;
    && ds != [] && ds[|ds| - 1].len == |c.output|
    && (forall i :: 1 <= i < |ds| ==> if ds[i].drain then ds[i].len <= ds[i - 1].len else ds[i - 1].len <= ds[i].len)
    && HighWaterCalls(c.ledger.queued) == (if c.options.highWater then Crossings(ds, c.options.mark) else 0)
  }

  /** One UP, then messages only. */
  ghost predicate OpenTrace(t: seq<Event>) {
    && |t| >= 1 && t[0] == Connection(true)
    && forall i :: 1 <= i < |t| ==> t[i] == Message
  }

  /** One UP, then messages, then one DOWN and nothing more. */
  ghost predicate ClosedTrace(t: seq<Event>) {
    |t| >= 2 && OpenTrace(t[..|t| - 1]) && t[|t| - 1] == Connection(false)
  }

  /** Registered for both input bits, and for the output bit while output waits. */
  function LiveReg(pending: bool): R.Reg {
    var mask := R.Mask(true, true, pending, false, false);
    R.Reg(R.ADDED, mask, true, Some(mask), false)
  }

  const ClosedReg := R.Reg(R.DELETED, R.NONE_EVENT, true, None, false)

  /** Between `ConnectEstablished` and `HandleClose`. */
  ghost predicate Live(c: Conn) {
    && (c.state == Connected || c.state == Disconnecting)
    && c.reg == LiveReg(c.output != [])
    && Stream(c) && Water(c)
    && OpenTrace(c.ledger.callbacks) && c.ledger.closeRequests == 0
  }

  /** After `HandleClose`; `reg` tells whether the channel is still in the map. */
  ghost predicate ClosedWith(c: Conn, reg: R.Reg) {
    && c.state == Disconnected && c.reg == reg
    && Stream(c) && Water(c)
    && ClosedTrace(c.ledger.callbacks) && c.ledger.closeRequests == 1
  }

  ghost predicate Closed(c: Conn) { ClosedWith(c, ClosedReg) }

  ghost predicate Gone(c: Conn) { ClosedWith(c, R.Unregistered) }

  /** Graceful half-close: the write half is shut exactly while disconnecting with
      an empty output buffer, and no write came after it. */
  predicate HalfClose(c: Conn) {
    && c.net.lateWrites == 0
    && (c.state != Disconnected ==>
          c.net.shutdowns == if c.state == Disconnecting && c.output == [] then 1 else 0)
    && (c.state == Disconnected ==> c.net.shutdowns <= 1 && (c.net.shutdowns == 1 ==> c.output == []))
  }

  // ------------------------------------------------------------ ledger lemmas

  lemma LogOne(log: seq<Sent>, s: Sent)
    ensures AcceptedBytes(log + [s]) == AcceptedBytes(log) + (if s.fate == Accepted then s.data else [])
  {
    assert (log + [s])[..|log|] == log;
  }

  lemma SentOne(t: nat, log: seq<Sent>, s: Sent)
    ensures SentBy(t, log + [s]) == SentBy(t, log) + (if s.sender == Foreign(t) then [s.data] else [])
  {
    assert (log + [s])[..|log|] == log;
  }

  lemma QueueOne(queued: seq<Task>, task: Task)
    ensures HighWaterCalls(queued + [task]) == HighWaterCalls(queued) + (if task.HighWater? then 1 else 0)
  {
    assert (queued + [task])[..|queued|] == queued;
  }

  lemma DepthOne(ds: seq<Depth>, d: Depth, mark: nat)
    requires ds != []
    ensures Crossings(ds + [d], mark)
         == Crossings(ds, mark) + (if ds[|ds| - 1].len < mark <= d.len then 1 else 0)
  {
    assert (ds + [d])[..|ds|] == ds;
    assert (ds + [d])[|ds| - 1] == ds[|ds| - 1];
  }

  // -------------------------------------------------------- one step at a time

  /** Buffering keeps the registration right and queues a high-water task exactly
      when the output crosses the mark. */
  lemma BufferRestEffect(c: Conn, rest: seq<Byte>)
    requires c.reg == LiveReg(c.output != [])
    ensures var d := BufferRest(c, rest);
      && d.output == c.output + rest && d.reg == LiveReg(d.output != [])
      && d == c.(output := d.output, reg := d.reg, ledger := c.ledger.(queued := d.ledger.queued))
      && d.ledger.queued == c.ledger.queued
           + (if c.options.highWater && |c.output| < c.options.mark <= |d.output| then [HighWater(|d.output|)] else [])
  {
    R.WantedMasks(c.reg, c.output != []);
  }

  /** Counting the high-water tasks that one `SendInLoop` adds. */
  lemma TasksCount(c: Conn, data: seq<Byte>, w: WriteOutcome, output: nat)
    ensures HighWaterCalls(c.ledger.queued + TasksOfSend(c, data, w, output))
         == HighWaterCalls(c.ledger.queued)
            + (if c.options.highWater && |c.output| < c.options.mark <= output then 1 else 0)
  {
    var q := c.ledger.queued;
    var q1 := if c.output == [] && w.Wrote? && w.n >= |data| && c.options.writeComplete
              then q + [WriteComplete] else q;
    QueueOne(q, WriteComplete);
    QueueOne(q1, HighWater(output));
    assert q + TasksOfSend(c, data, w, output)
        == if c.options.highWater && |c.output| < c.options.mark <= output then q1 + [HighWater(output)] else q1;
  }

  /** How many bytes go out at once: none while others wait, else what the kernel takes. */
  function DirectBytes(c: Conn, data: seq<Byte>, w: WriteOutcome): (n: nat)
    ensures n <= |data|
  {
    if c.output == [] && w.Wrote? then Min(w.n, |data|) else 0
  }

  /** The message is lost: its immediate write has met a broken or reset connection. */
  predicate Drops(c: Conn, w: WriteOutcome) {
    c.output == [] && (w == WriteFailed(BrokenPipe) || w == WriteFailed(ConnReset))
  }

  /** The tasks that one `SendInLoop` queues: write-complete when `write` took all of
      the message at once, high-water when what is buffered crosses the mark. */
  function TasksOfSend(c: Conn, data: seq<Byte>, w: WriteOutcome, output: nat): seq<Task> {
    (if c.output == [] && w.Wrote? && w.n >= |data| && c.options.writeComplete then [WriteComplete] else [])
    + (if c.options.highWater && |c.output| < c.options.mark <= output then [HighWater(output)] else [])
  }

  /** The fields of `d` after `SendInLoop` on `c`, which was not closed. */
  predicate Delivered(c: Conn, who: Sender, data: seq<Byte>, w: WriteOutcome, d: Conn) {
    && d.state == c.state && d.options == c.options && d.input == c.input
    && d.net.wire == c.net.wire + data[..DirectBytes(c, data, w)]
    && d.net.shutdowns == c.net.shutdowns
    && d.net.lateWrites == c.net.lateWrites + (if c.output == [] && c.net.shutdowns > 0 then 1 else 0)
    && d.output == (if Drops(c, w) then c.output else c.output + data[DirectBytes(c, data, w)..])
    && d.reg == LiveReg(d.output != [])
    && d.ledger == c.ledger.(queued := d.ledger.queued,
                     log := c.ledger.log + [Sent(who, data, if Drops(c, w) then Dropped else Accepted)],
                     depths := c.ledger.depths + [Depth(|d.output|, false)])
    && d.ledger.queued == c.ledger.queued + TasksOfSend(c, data, w, |d.output|)
  }

  lemma DirectEffect(c: Conn, who: Sender, data: seq<Byte>, w: WriteOutcome)
    requires c.reg == LiveReg(false) && c.output == []
    ensures Delivered(c, who, data, w, SendDirect(c, who, data, w))
  {
    if !IsFault(w) {
      DirectKeeps(c, who, data, w, w.Taken(|data|), data[w.Taken(|data|)..]);
    }
  }

  /** The case without a fault: `n` bytes have gone out and `rest` is buffered. */
  lemma DirectKeeps(c: Conn, who: Sender, data: seq<Byte>, w: WriteOutcome, n: nat, rest: seq<Byte>)
    requires c.reg == LiveReg(false) && c.output == [] && !IsFault(w)
    requires n == w.Taken(|data|) && rest == data[n..]
    ensures Delivered(c, who, data, w, SendDirect(c, who, data, w))
  {
    var done := w.Wrote? && rest == [] && c.options.writeComplete;
    assert done <==> w.Wrote? && w.n >= |data| && c.options.writeComplete;
    var c1 := c.(net := OnWrite(c.net, data, w));
    var c2 := if done then Queue(c1, WriteComplete) else c1;
    var d := BufferRest(c2, rest);
    BufferRestEffect(c2, rest);
    assert SendDirect(c, who, data, w) == NoteDepth(Log(d, Sent(who, data, Accepted)), false);
    KeepsTasks(c, data, w, d, done);
  }

  lemma KeepsTasks(c: Conn, data: seq<Byte>, w: WriteOutcome, d: Conn, done: bool)
    requires c.output == [] && (done <==> w.Wrote? && w.n >= |data| && c.options.writeComplete)
    requires d.ledger.queued == (if done then c.ledger.queued + [WriteComplete] else c.ledger.queued)
           + (if c.options.highWater && |c.output| < c.options.mark <= |d.output| then [HighWater(|d.output|)] else [])
    ensures d.ledger.queued == c.ledger.queued + TasksOfSend(c, data, w, |d.output|)
  {
  }

  lemma SendEffect(c: Conn, who: Sender, data: seq<Byte>, w: WriteOutcome)
    requires c.state != Disconnected && c.reg == LiveReg(c.output != [])
    ensures Delivered(c, who, data, w, SendInLoop(c, who, data, w))
  {
    R.WantedMasks(c.reg, c.output != []);
    if c.output == [] {
      DirectEffect(c, who, data, w);
    } else {
      BufferRestEffect(c, data);
      assert data[0..] == data && data[..0] == [];
      assert c.net.wire + [] == c.net.wire;
    }
  }

  lemma WaterStep(c: Conn, d: Conn, drain: bool)
    requires Water(c) && d.options == c.options
    requires d.ledger.depths == c.ledger.depths + [Depth(|d.output|, drain)]
    requires if drain then |d.output| <= |c.output| else |c.output| <= |d.output|
    requires HighWaterCalls(d.ledger.queued) == HighWaterCalls(c.ledger.queued)
           + (if c.options.highWater && |c.output| < c.options.mark <= |d.output| then 1 else 0)
    ensures Water(d)
  {
    DepthOne(c.ledger.depths, Depth(|d.output|, drain), c.options.mark);
  }

  lemma SendStream(c: Conn, who: Sender, data: seq<Byte>, w: WriteOutcome)
    requires Stream(c) && c.state != Disconnected && c.reg == LiveReg(c.output != [])
    ensures Stream(SendInLoop(c, who, data, w))
  {
    SendEffect(c, who, data, w);
    var n := DirectBytes(c, data, w);
    LogOne(c.ledger.log, Sent(who, data, if Drops(c, w) then Dropped else Accepted));
    if Drops(c, w) {
      assert c.net.wire + data[..0] == c.net.wire;
    } else {
      R.WantedMasks(c.reg, c.output != []);
      Splice(c.net.wire, c.output, data, n);
    }
  }

  lemma Splice(wire: seq<Byte>, output: seq<Byte>, data: seq<Byte>, n: nat)
    requires n <= |data| && (output == [] || n == 0)
    ensures (wire + data[..n]) + (output + data[n..]) == (wire + output) + data
  {
    assert data == data[..n] + data[n..];
  }

  lemma SendKeepsLive(c: Conn, who: Sender, data: seq<Byte>, w: WriteOutcome)
    requires Live(c)
    ensures Live(SendInLoop(c, who, data, w))
    ensures SendInLoop(c, who, data, w).state == c.state
  {
    SendEffect(c, who, data, w);
    SendStream(c, who, data, w);
    TasksCount(c, data, w, |SendInLoop(c, who, data, w).output|);
    WaterStep(c, SendInLoop(c, who, data, w), false);
  }

  /** A write follows the shutdown of the write half exactly when `SendInLoop` runs
      after it: while disconnecting with nothing left to send. */
  lemma LateWriteIff(c: Conn, who: Sender, data: seq<Byte>, w: WriteOutcome)
    requires Live(c) && HalfClose(c)
    ensures HalfClose(SendInLoop(c, who, data, w)) || c.state == Disconnecting
    ensures SendInLoop(c, who, data, w).net.lateWrites > 0 <==> c.state == Disconnecting && c.output == []
  {
    SendEffect(c, who, data, w);
    R.WantedMasks(c.reg, c.output != []);
  }

  // ------------------------------------------------------------------- writing

  lemma WriteEffect(c: Conn, w: WriteOutcome)
    requires Live(c) && c.output != []
    ensures var d := HandleWrite(c, w); var n := w.Taken(|c.output|);
      && d.state == c.state && d.options == c.options && d.input == c.input
      && d.net.wire == c.net.wire + c.output[..n]
      && d.output == c.output[n..]
      && d.net.shutdowns == c.net.shutdowns + (if d.output == [] && c.state == Disconnecting then 1 else 0)
      && d.net.lateWrites == c.net.lateWrites + (if c.net.shutdowns > 0 then 1 else 0)
      && d.reg == LiveReg(d.output != [])
      && d.ledger == c.ledger.(queued := d.ledger.queued,
                       depths := c.ledger.depths + [Depth(|d.output|, true)])
      && d.ledger.queued == c.ledger.queued
           + (if d.output == [] && c.options.writeComplete then [WriteComplete] else [])
  {
    R.WantedMasks(c.reg, true);
    R.WantedMasks(LiveReg(false), false);
    assert c.ledger.queued + [] == c.ledger.queued;
  }

  lemma Unsplice(wire: seq<Byte>, output: seq<Byte>, n: nat)
    requires n <= |output|
    ensures (wire + output[..n]) + output[n..] == wire + output
  {
  }

  lemma WriteKeepsLive(c: Conn, w: WriteOutcome)
    requires Live(c)
    ensures Live(HandleWrite(c, w))
    ensures HandleWrite(c, w).ledger.log == c.ledger.log
    ensures HandleWrite(c, w).state == c.state
  {
    if c.output == [] {
      R.WantedMasks(c.reg, false);
    } else {
      WriteEffect(c, w);
      if c.options.writeComplete { QueueOne(c.ledger.queued, WriteComplete); }
      WaterStep(c, HandleWrite(c, w), true);
      Unsplice(c.net.wire, c.output, w.Taken(|c.output|));
    }
  }

  lemma WriteKeepsHalfClose(c: Conn, w: WriteOutcome)
    requires Live(c) && HalfClose(c)
    ensures HalfClose(HandleWrite(c, w))
  {
    if c.output == [] {
      R.WantedMasks(c.reg, false);
    } else {
      WriteEffect(c, w);
    }
  }

  // ------------------------------------------------------------------ user code

  lemma ActKeepsLive(c: Conn, a: Action)
    requires Live(c)
    ensures Live(Act(c, a))
  {
    match a
    case Send(data, w) => SendKeepsLive(c, LoopThread, data, w);
    case SendInput(w) => SendInputKeepsLive(c, w);
    case Shutdown => ShutdownKeepsLive(c);
    case Consume(_) =>
  }

  lemma SendInputKeepsLive(c: Conn, w: WriteOutcome)
    requires Live(c)
    ensures Live(Act(c, SendInput(w)))
  {
    SendKeepsLive(c, LoopThread, c.input, w);
  }

  lemma ShutdownKeepsLive(c: Conn)
    requires Live(c)
    ensures Live(Act(c, Shutdown))
  {
  }

  /** `Send` on the loop thread checks the state, so it never writes too late. */
  lemma SendKeepsHalfClose(c: Conn, data: seq<Byte>, w: WriteOutcome)
    requires Live(c) && HalfClose(c) && c.state == Connected
    ensures HalfClose(SendInLoop(c, LoopThread, data, w))
    ensures SendInLoop(c, LoopThread, data, w).state == Connected
  {
    SendEffect(c, LoopThread, data, w);
  }

  lemma ActKeepsHalfClose(c: Conn, a: Action)
    requires Live(c) && HalfClose(c)
    ensures HalfClose(Act(c, a))
  {
    if c.state == Connected {
      match a
      case Send(data, w) => SendKeepsHalfClose(c, data, w);
      case SendInput(w) => SendKeepsHalfClose(c, c.input, w);
      case Shutdown => R.WantedMasks(c.reg, c.output != []);
      case Consume(_) =>
    }
  }

  lemma {:induction false} ScriptKeepsLive(c: Conn, script: seq<Action>)
    requires Live(c)
    ensures Live(RunScript(c, script))
    ensures HalfClose(c) ==> HalfClose(RunScript(c, script))
    decreases |script|
  {
    if script != [] {
      ActKeepsLive(c, script[0]);
      if HalfClose(c) { ActKeepsHalfClose(c, script[0]); }
      ScriptKeepsLive(Act(c, script[0]), script[1..]);
    }
  }

  /** Once closed, user code can only take bytes out of the input buffer. */
  lemma {:induction false} ScriptOnClosed(c: Conn, script: seq<Action>)
    requires c.state == Disconnected
    ensures var d := RunScript(c, script);
      d == c.(input := d.input, ledger := c.ledger.(taken := d.ledger.taken))
    decreases |script|
  {
    if script != [] {
      ScriptOnClosed(Act(c, script[0]), script[1..]);
    }
  }

  // ------------------------------------------------------------------- handlers

  lemma EstablishGoesLive(options: Options, script: seq<Action>)
    ensures var d := ConnectEstablished(Fresh(options), script);
      Live(d) && HalfClose(d)
  {
    R.EstablishMask();
    var c := Fresh(options);
    var c1 := Call(c.(state := Connected, reg := R.EnableReading(c.reg)), Connection(true));
    assert c1.ledger.callbacks == [Connection(true)];
    assert Crossings(c1.ledger.depths, options.mark) == 0 by {
      assert c1.ledger.depths[..0] == [];
    }
    assert Live(c1);
    ScriptKeepsLive(c1, script);
  }

  lemma CloseGoesClosed(c: Conn, script: seq<Action>)
    requires Live(c)
    ensures var d := HandleClose(c, script);
      && Closed(d) && (HalfClose(c) ==> HalfClose(d))
      && d.net == c.net && d.ledger.callbacks == c.ledger.callbacks + [Connection(false)]
  {
    R.WantedMasks(c.reg, c.output != []);
    var c1 := Call(c.(state := Disconnected, reg := R.DisableAll(c.reg)), Connection(false));
    ScriptOnClosed(c1, script);
    var t := c.ledger.callbacks;
    assert (t + [Connection(false)])[..|t|] == t;
  }

  lemma DestroyAfterClose(c: Conn, script: seq<Action>)
    requires Closed(c)
    ensures Gone(ConnectDestroyed(c, script)) && ConnectDestroyed(c, script) == c.(reg := R.Unregistered)
  {
  }

  lemma ReadKeeps(c: Conn, io: IO)
    requires Live(c)
    ensures var d := HandleRead(c, io);
      && (if io.read == Got([]) then Closed(d) else Live(d))
      && (HalfClose(c) ==> HalfClose(d))
  {
    match io.read
    case ReadFailed(_) =>
    case Got(bytes) =>
      var c1 := Received(c, bytes);
      assert Live(c1);
      if |bytes| > 0 {
        var c2 := Call(c1, Message);
        assert Live(c2);
        ScriptKeepsLive(c2, io.onMessage);
      } else {
        CloseGoesClosed(c1, io.onClose);
      }
  }

  /** The one mask that runs the close handler and then the read handler. */
  predicate ClosesThenReads(revents: R.Mask) {
    revents.hup && revents.pri && !revents.input
  }

  lemma EventKeeps(c: Conn, revents: R.Mask, io: IO)
    requires Live(c) && !ClosesThenReads(revents)
    ensures var d := HandleEvent(c, revents, io);
      && (Live(d) || Closed(d))
      && (HalfClose(c) ==> HalfClose(d))
  {
    var c1 := if revents.hup && !revents.input then HandleClose(c, io.onClose) else c;
    if revents.hup && !revents.input {
      CloseGoesClosed(c, io.onClose);
    } else {
      var c2 := if revents.input || revents.pri then HandleRead(c1, io) else c1;
      ReadKeeps(c, io);
      if revents.output && Live(c2) {
        WriteKeepsLive(c2, io.write);
        if HalfClose(c2) { WriteKeepsHalfClose(c2, io.write); }
      }
    }
  }

  ghost predicate ProperTrace(t: seq<Event>) { OpenTrace(t) || ClosedTrace(t) }

  /** The callback order survives a dispatched event unless the mask closes and then
      reads, and the read then succeeds: exactly then user code is called again
      after its DOWN. */
  lemma DispatchOrderIff(c: Conn, revents: R.Mask, io: IO)
    requires Live(c)
    ensures ProperTrace(HandleEvent(c, revents, io).ledger.callbacks)
       <==> !(ClosesThenReads(revents) && io.read.Got?)
  {
    if ClosesThenReads(revents) {
      CloseGoesClosed(c, io.onClose);
      var c1 := HandleClose(c, io.onClose);
      if io.read.Got? {
        CallsAfterDown(c1, io);
        assert HandleRead(c1, io).ledger.callbacks == HandleEvent(c, revents, io).ledger.callbacks;
      }
    } else {
      EventKeeps(c, revents, io);
    }
  }

  lemma CallsAfterDown(c: Conn, io: IO)
    requires Closed(c) && io.read.Got?
    ensures !ProperTrace(HandleRead(c, io).ledger.callbacks)
    ensures !R.IsWriting(HandleRead(c, io).reg)
  {
    var bytes := io.read.bytes;
    var c1 := Received(c, bytes);
    var t := c.ledger.callbacks;
    var d := HandleRead(c, io);
    if |bytes| > 0 {
      ScriptOnClosed(Call(c1, Message), io.onMessage);
      assert d.ledger.callbacks == t + [Message];
    } else {
      var c2 := Call(c1.(reg := R.DisableAll(c1.reg)), Connection(false));
      ScriptOnClosed(c2, io.onClose);
      assert d.ledger.callbacks == t + [Connection(false)];
    }
    var t' := d.ledger.callbacks;
    assert t'[|t| - 1] == Connection(false) && t'[..|t'| - 1] == t;
    assert t[|t| - 1] != Message;
  }

  // -------------------------------------------- functors posted by other threads

  lemma SendOnClosed(c: Conn, who: Sender, data: seq<Byte>, w: WriteOutcome)
    requires c.state == Disconnected && Stream(c)
    ensures var d := SendInLoop(c, who, data, w);
      && d == c.(ledger := c.ledger.(log := c.ledger.log + [Sent(who, data, Refused)]))
      && Stream(d)
  {
    LogOne(c.ledger.log, Sent(who, data, Refused));
  }

  // ----------------------------------------------------- who sent what, by thread

  lemma BufferRestLog(c: Conn, rest: seq<Byte>)
    ensures BufferRest(c, rest).ledger.log == c.ledger.log
  {
  }

  lemma SendAppends(c: Conn, who: Sender, data: seq<Byte>, w: WriteOutcome)
    ensures exists fate :: SendInLoop(c, who, data, w).ledger.log == c.ledger.log + [Sent(who, data, fate)]
  {
    BufferRestLog(c, data);
    var c1 := c.(net := OnWrite(c.net, data, w));
    BufferRestLog(c1, data[w.Taken(|data|)..]);
    BufferRestLog(Queue(c1, WriteComplete), data[w.Taken(|data|)..]);
  }

  lemma SendLog(c: Conn, who: Sender, data: seq<Byte>, w: WriteOutcome, t: nat)
    ensures SentBy(t, SendInLoop(c, who, data, w).ledger.log)
         == SentBy(t, c.ledger.log) + (if who == Foreign(t) then [data] else [])
  {
    SendAppends(c, who, data, w);
    var fate :| SendInLoop(c, who, data, w).ledger.log == c.ledger.log + [Sent(who, data, fate)];
    SentOne(t, c.ledger.log, Sent(who, data, fate));
  }

  lemma {:induction false} ScriptLog(c: Conn, script: seq<Action>, t: nat)
    ensures SentBy(t, RunScript(c, script).ledger.log) == SentBy(t, c.ledger.log)
    decreases |script|
  {
    if script != [] {
      match script[0] {
        case Send(data, w) => SendLog(c, LoopThread, data, w, t);
        case SendInput(w) => SendLog(c, LoopThread, c.input, w, t);
        case Shutdown =>
        case Consume(_) =>
      }
      ScriptLog(Act(c, script[0]), script[1..], t);
    }
  }

  lemma CloseLog(c: Conn, script: seq<Action>, t: nat)
    ensures SentBy(t, HandleClose(c, script).ledger.log) == SentBy(t, c.ledger.log)
  {
    var c1 := c.(state := Disconnected, reg := R.DisableAll(c.reg));
    ScriptLog(Call(c1, Connection(false)), script, t);
  }

  lemma ReadLog(c: Conn, io: IO, t: nat)
    ensures SentBy(t, HandleRead(c, io).ledger.log) == SentBy(t, c.ledger.log)
  {
    if io.read.Got? {
      var bytes := io.read.bytes;
      var r := Received(c, bytes);
      if |bytes| > 0 {
        ScriptLog(Call(r, Message), io.onMessage, t);
      } else {
        CloseLog(r, io.onClose, t);
      }
    }
  }

  lemma WriteLog(c: Conn, w: WriteOutcome)
    ensures HandleWrite(c, w).ledger.log == c.ledger.log
  {
  }

  /** Events and the callbacks they run add nothing to another thread's messages. */
  lemma EventLog(c: Conn, revents: R.Mask, io: IO, t: nat)
    ensures SentBy(t, HandleEvent(c, revents, io).ledger.log) == SentBy(t, c.ledger.log)
  {
    var c1 := if revents.hup && !revents.input then HandleClose(c, io.onClose) else c;
    var c2 := if revents.input || revents.pri then HandleRead(c1, io) else c1;
    CloseLog(c, io.onClose, t);
    ReadLog(c1, io, t);
    WriteLog(c2, io.write);
  }
}
