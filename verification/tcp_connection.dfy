/** TcpConnection as an object over two Buffers, a Channel and a Socket; every
    handler is proved equal to its function in ConnectionModel. All methods run on
    the connection's loop thread. */
module TcpConnections {
  import opened Basics
  import opened Kernel
  import opened Buffers
  import opened Reactor
  import opened CM = ConnectionModel
  import R = Registration
  import M = BufferModel

  /** The input buffer's layout after user code has run on a closed connection, where
      only `Consume` still does something. */
  ghost function LeftAfter(l: M.Layout, script: seq<Action>): (m: M.Layout)
    requires l.Ok()
    ensures m.Ok()
    decreases |script|
  {
    if script == [] then l else LeftAfter(LeftBy(l, script[0]), script[1..])
  }

  ghost function LeftBy(l: M.Layout, a: Action): (m: M.Layout)
    requires l.Ok()
    ensures m.Ok()
  {
    if a.Consume? then l.Retrieve(a.len) else l
  }

  class TcpConnection {
    var state: TcpState
    var options: Options
    const channel: Channel
    const socket: Socket
    const inputBuffer: Buffer
    const outputBuffer: Buffer
    ghost var ledger: Ledger

    ghost predicate Valid()
      reads channel, channel.poller, channel.poller.owned
      reads inputBuffer, inputBuffer.data, outputBuffer, outputBuffer.data
    {
      && channel.poller.Valid() && channel in channel.poller.owned && channel.poller.Recorded(channel)
      && inputBuffer != outputBuffer && inputBuffer.data != outputBuffer.data
      && inputBuffer.Valid() && outputBuffer.Valid()
    }

    ghost function View(): (c: Conn)
      requires Valid()
      reads this, channel, channel.poller, channel.poller.owned, socket
      reads inputBuffer, inputBuffer.data, outputBuffer, outputBuffer.data
    {
      Conn(state, inputBuffer.contents, outputBuffer.contents, channel.poller.regs[channel],
           options, socket.net, ledger)
    }

    /** What no handler may touch: the registrations of the loop's other channels. */
    ghost function Others(): map<Channel, R.Reg>
      reads channel.poller
    {
      channel.poller.regs - {channel}
    }

    constructor (poller: EpollPoller, fd: int, options: Options)
      requires poller.Valid() && forall c :: c in poller.owned ==> c.fd != fd
      modifies poller
      ensures Valid() && View() == Fresh(options)
      ensures channel.fd == fd && channel.poller == poller
    {
      state := Connecting;
      this.options := options;
      channel := new Channel(poller, fd);
      socket := new Socket();
      inputBuffer := new Buffer();
      outputBuffer := new Buffer();
      ledger := Ledger([], [], [], [], [], 0, [Depth(0, false)]);
    }

    // One change at a time.

    method QueueInLoop(ghost task: Task)
      requires Valid()
      modifies this`ledger
      ensures Valid() && View() == Queue(old(View()), task)
    {
      ledger := ledger.(queued := ledger.queued + [task]);
    }

    ghost method Record(sent: Sent)
      requires Valid()
      modifies this`ledger
      ensures Valid() && View() == Log(old(View()), sent)
    {
      ledger := ledger.(log := ledger.log + [sent]);
    }

    ghost method RecordSend(sent: Sent)
      requires Valid()
      modifies this`ledger
      ensures Valid() && View() == CM.NoteDepth(Log(old(View()), sent), false)
    {
      ledger := ledger.(log := ledger.log + [sent],
                        depths := ledger.depths + [Depth(|outputBuffer.contents|, false)]);
    }

    method Buffered(rest: seq<Byte>)
      requires Valid()
      modifies outputBuffer, outputBuffer.data
      ensures Valid() && Others() == old(Others())
      ensures outputBuffer.data == old(outputBuffer.data) || fresh(outputBuffer.data)
      ensures View() == old(View()).(output := old(View()).output + rest)
    {
      outputBuffer.Append(rest);
    }

    method EnableWriting()
      requires Valid()
      modifies channel, channel.poller
      ensures Valid() && Others() == old(Others())
      ensures View() == old(View()).(reg := R.EnableWriting(old(View()).reg))
    {
      channel.EnableWriting();
    }

    method DisableWriting()
      requires Valid()
      modifies channel, channel.poller
      ensures Valid() && Others() == old(Others())
      ensures View() == old(View()).(reg := R.DisableWriting(old(View()).reg))
    {
      channel.DisableWriting();
    }

    /** Queue the high-water callback if `len` more bytes take the output to the mark. */
    method NoteHighWater(len: nat)
      requires Valid()
      modifies this`ledger
      ensures Valid()
      ensures var c, total := old(View()), |old(View()).output| + len;
        View() == if total >= options.mark && |c.output| < options.mark && options.highWater
                  then Queue(c, HighWater(total)) else c
    {
      var oldLen := outputBuffer.ReadableBytes();
      if oldLen + len >= options.mark && oldLen < options.mark && options.highWater {
        QueueInLoop(HighWater(oldLen + len));
      }
    }

    /** Enable writing unless it is on. */
    method WatchOutput()
      requires Valid()
      modifies channel, channel.poller
      ensures Valid() && Others() == old(Others())
      ensures var c := old(View());
        View() == if R.IsWriting(c.reg) then c else c.(reg := R.EnableWriting(c.reg))
    {
      if !channel.IsWriting() {
        EnableWriting();
      }
    }

    /** Append the part of a message that was not written at once. */
    method BufferRest(rest: seq<Byte>)
      requires Valid() && rest != []
      modifies this`ledger, channel, channel.poller, outputBuffer, outputBuffer.data
      ensures Valid() && Others() == old(Others())
      ensures outputBuffer.data == old(outputBuffer.data) || fresh(outputBuffer.data)
      ensures View() == CM.BufferRest(old(View()), rest)
    {
      NoteHighWater(|rest|);
      Buffered(rest);
      WatchOutput();
    }

    method SendInLoop(ghost who: Sender, data: seq<Byte>, w: WriteOutcome)
      requires Valid()
      modifies this`ledger, channel, channel.poller, socket, outputBuffer, outputBuffer.data
      ensures Valid() && Others() == old(Others())
      ensures outputBuffer.data == old(outputBuffer.data) || fresh(outputBuffer.data)
      ensures View() == CM.SendInLoop(old(View()), who, data, w)
    {
      if state == Disconnected {
        Record(Sent(who, data, Refused));
      } else {
        SendOpen(who, data, w);
      }
    }

    /** Whether a message may be written at once. */
    method NothingWaits() returns (b: bool)
      requires Valid()
      ensures b <==> WritesDirectly(View())
    {
      b := !channel.IsWriting() && outputBuffer.ReadableBytes() == 0;
    }

    method SendOpen(ghost who: Sender, data: seq<Byte>, w: WriteOutcome)
      requires Valid() && state != Disconnected
      modifies this`ledger, channel, channel.poller, socket, outputBuffer, outputBuffer.data
      ensures Valid() && Others() == old(Others())
      ensures outputBuffer.data == old(outputBuffer.data) || fresh(outputBuffer.data)
      ensures View() == CM.SendInLoop(old(View()), who, data, w)
    {
      var direct := NothingWaits();
      if direct {
        SendDirect(who, data, w);
      } else {
        BufferAll(who, data);
      }
    }

    /** Nothing is tried at once: all of the message is buffered. */
    method BufferAll(ghost who: Sender, data: seq<Byte>)
      requires Valid()
      modifies this`ledger, channel, channel.poller, outputBuffer, outputBuffer.data
      ensures Valid() && Others() == old(Others())
      ensures outputBuffer.data == old(outputBuffer.data) || fresh(outputBuffer.data)
      ensures View() == NoteDepth(Log(CM.BufferRest(old(View()), data), Sent(who, data, Accepted)), false)
    {
      assert data[0..] == data;
      FinishSend(who, data, 0, false);
    }

    method SendDirect(ghost who: Sender, data: seq<Byte>, w: WriteOutcome)
      requires Valid()
      modifies this`ledger, channel, channel.poller, socket, outputBuffer, outputBuffer.data
      ensures Valid() && Others() == old(Others())
      ensures outputBuffer.data == old(outputBuffer.data) || fresh(outputBuffer.data)
      ensures View() == CM.SendDirect(old(View()), who, data, w)
    {
      var nwrote, faultError := WriteNow(data, w);
      FinishSend(who, data, nwrote, faultError);
    }

    /** The second half of `SendInLoop`: buffer what is left, unless the peer is gone. */
    method FinishSend(ghost who: Sender, data: seq<Byte>, nwrote: nat, faultError: bool)
      requires Valid() && nwrote <= |data|
      modifies this`ledger, channel, channel.poller, outputBuffer, outputBuffer.data
      ensures Valid() && Others() == old(Others())
      ensures outputBuffer.data == old(outputBuffer.data) || fresh(outputBuffer.data)
      ensures var c := old(View());
        View() == CM.NoteDepth(Log(if faultError then c else CM.BufferRest(c, data[nwrote..]),
                               Sent(who, data, if faultError then Dropped else Accepted)), false)
    {
      if !faultError && nwrote < |data| {
        BufferRest(data[nwrote..]);
      }
      RecordSend(Sent(who, data, if faultError then Dropped else Accepted));
    }

    /** The immediate `write` at the head of `SendInLoop`. */
    method WriteNow(data: seq<Byte>, w: WriteOutcome) returns (nwrote: nat, faultError: bool)
      requires Valid()
      modifies this`ledger, socket
      ensures Valid() && nwrote == w.Taken(|data|) && faultError == IsFault(w)
      ensures var c1 := old(View()).(net := OnWrite(old(View()).net, data, w));
        View() == if w.Wrote? && data[nwrote..] == [] && options.writeComplete then Queue(c1, WriteComplete) else c1
    {
      nwrote, faultError := 0, false;
      var n, errno := socket.Write(data, w);
      if n >= 0 {
        nwrote := n;
        if |data| - nwrote == 0 && options.writeComplete {
          QueueInLoop(WriteComplete);
        }
      } else if errno != WouldBlock {
        if errno == BrokenPipe || errno == ConnReset {
          faultError := true;
        }
      }
    }

    method Send(data: seq<Byte>, w: WriteOutcome)
      requires Valid()
      modifies this`ledger, channel, channel.poller, socket, outputBuffer, outputBuffer.data
      ensures Valid() && Others() == old(Others())
      ensures outputBuffer.data == old(outputBuffer.data) || fresh(outputBuffer.data)
      ensures View() == Act(old(View()), Action.Send(data, w))
    {
      if state == Connected {
        SendInLoop(LoopThread, data, w);
      }
    }

    /** `Send(Buffer*)` on the input buffer, as a message callback may call it. */
    method SendInput(w: WriteOutcome)
      requires Valid()
      modifies this`ledger, channel, channel.poller, socket, inputBuffer, outputBuffer, outputBuffer.data
      ensures Valid() && Others() == old(Others()) && inputBuffer.data == old(inputBuffer.data)
      ensures outputBuffer.data == old(outputBuffer.data) || fresh(outputBuffer.data)
      ensures View() == Act(old(View()), Action.SendInput(w))
      ensures state == Disconnected ==> inputBuffer.Layout() == old(inputBuffer.Layout())
    {
      if state == Connected {
        SendAndTake(w);
      }
    }

    method SendAndTake(w: WriteOutcome)
      requires Valid()
      modifies this`ledger, channel, channel.poller, socket, inputBuffer, outputBuffer, outputBuffer.data
      ensures Valid() && Others() == old(Others()) && inputBuffer.data == old(inputBuffer.data)
      ensures outputBuffer.data == old(outputBuffer.data) || fresh(outputBuffer.data)
      ensures View() == TakeAll(CM.SendInLoop(old(View()), LoopThread, old(View()).input, w))
    {
      var bytes := inputBuffer.Peek();
      SendInLoop(LoopThread, bytes, w);
      TakeInput();
    }

    /** Empty the input buffer into user code's hands. */
    method TakeInput()
      requires Valid()
      modifies this`ledger, inputBuffer
      ensures Valid() && inputBuffer.data == old(inputBuffer.data) && View() == TakeAll(old(View()))
    {
      RecordTaken(inputBuffer.contents);
      inputBuffer.RetrieveAll();
    }

    ghost method RecordTaken(bytes: seq<Byte>)
      requires Valid()
      modifies this`ledger
      ensures Valid()
      ensures View() == old(View()).(ledger := old(View()).ledger.(taken := old(View()).ledger.taken + bytes))
    {
      ledger := ledger.(taken := ledger.taken + bytes);
    }

    /** `Send(Buffer*)` on a buffer that the connection does not own. */
    method SendBuffer(buffer: Buffer, w: WriteOutcome)
      requires Valid() && buffer.Valid() && buffer != inputBuffer && buffer != outputBuffer
      requires buffer.data != inputBuffer.data && buffer.data != outputBuffer.data
      modifies this`ledger, channel, channel.poller, socket, buffer, outputBuffer, outputBuffer.data
      ensures Valid() && Others() == old(Others()) && buffer.Valid()
      ensures View() == Act(old(View()), Action.Send(old(buffer.contents), w))
      ensures buffer.contents == if state == Connected then [] else old(buffer.contents)
    {
      if state == Connected {
        var bytes := buffer.Peek();
        SendInLoop(LoopThread, bytes, w);
        buffer.RetrieveAll();
      }
    }

    method ShutdownInLoop()
      requires Valid()
      modifies socket
      ensures Valid() && View() == CM.ShutdownInLoop(old(View()))
    {
      if !channel.IsWriting() {
        socket.ShutdownWrite();
      }
    }

    method Shutdown()
      requires Valid()
      modifies this`state, socket
      ensures Valid() && View() == Act(old(View()), Action.Shutdown)
    {
      if state == Connected {
        state := Disconnecting;
        ShutdownInLoop();
      }
    }

    method HandleWrite(w: WriteOutcome)
      requires Valid()
      modifies this`ledger, channel, channel.poller, socket, outputBuffer
      ensures Valid() && Others() == old(Others()) && outputBuffer.data == old(outputBuffer.data)
      ensures View() == CM.HandleWrite(old(View()), w)
    {
      if channel.IsWriting() {
        var n := WriteOut(w);
        if n > 0 {
          if outputBuffer.ReadableBytes() == 0 {
            FinishDrain();
          }
        }
      }
    }

    /** The output buffer has just become empty. */
    method FinishDrain()
      requires Valid()
      modifies this`ledger, channel, channel.poller, socket
      ensures Valid() && Others() == old(Others())
      ensures View() == CM.FinishDrain(old(View()))
    {
      DisableWriting();
      ReportDrained();
    }

    method ReportDrained()
      requires Valid()
      modifies this`ledger, socket
      ensures Valid()
      ensures var c2 := old(View());
        var c3 := if options.writeComplete then Queue(c2, WriteComplete) else c2;
        View() == if c3.state == Disconnecting then CM.ShutdownInLoop(c3) else c3
    {
      if options.writeComplete {
        QueueInLoop(WriteComplete);
      }
      if state == Disconnecting {
        ShutdownInLoop();
      }
    }

    /** One `write` of the output buffer, and the note of its new length. */
    method WriteOut(w: WriteOutcome) returns (n: int)
      requires Valid()
      modifies this`ledger, socket, outputBuffer
      ensures Valid() && outputBuffer.data == old(outputBuffer.data)
      ensures n > 0 <==> w.Taken(|old(View()).output|) > 0
      ensures |outputBuffer.contents| == |old(View()).output| - w.Taken(|old(View()).output|)
      ensures View() == CM.WriteOut(old(View()), w)
    {
      n := DrainOnce(w);
      RecordDrain();
    }

    method DrainOnce(w: WriteOutcome) returns (n: int)
      requires Valid()
      modifies socket, outputBuffer
      ensures Valid() && outputBuffer.data == old(outputBuffer.data)
      ensures n == if w.Wrote? then w.Taken(|old(View()).output|) else -1
      ensures var c := old(View());
        View() == c.(net := OnWrite(c.net, c.output, w), output := c.output[w.Taken(|c.output|)..])
    {
      var savedErrno;
      RestIsSuffix(outputBuffer.contents, w.Taken(outputBuffer.ReadableBytes()));
      n, savedErrno := outputBuffer.WriteFd(socket, w);
    }

    ghost method RecordDrain()
      requires Valid()
      modifies this`ledger
      ensures Valid() && View() == CM.NoteDepth(old(View()), true)
    {
      ledger := ledger.(depths := ledger.depths + [Depth(|outputBuffer.contents|, true)]);
    }

    // ------------------------------------------------------------- user code

    /** Retrieve from the input buffer, as a message callback does. */
    method Consume(len: nat)
      requires Valid()
      modifies this`ledger, inputBuffer
      ensures Valid() && inputBuffer.data == old(inputBuffer.data)
      ensures View() == Act(old(View()), Action.Consume(len))
      ensures inputBuffer.Layout() == old(inputBuffer.Layout()).Retrieve(len)
    {
      RecordTaken(Front(inputBuffer.contents, len));
      inputBuffer.Retrieve(len);
    }

    method Perform(a: Action)
      requires Valid()
      modifies this`state, this`ledger, channel, channel.poller, socket, inputBuffer, outputBuffer, outputBuffer.data
      ensures Valid() && Others() == old(Others()) && inputBuffer.data == old(inputBuffer.data)
      ensures outputBuffer.data == old(outputBuffer.data) || fresh(outputBuffer.data)
      ensures View() == Act(old(View()), a)
      ensures old(state) == Disconnected ==> inputBuffer.Layout() == LeftBy(old(inputBuffer.Layout()), a)
    {
      match a
      case Send(data, w) => Send(data, w);
      case SendInput(w) => SendInput(w);
      case Shutdown => Shutdown();
      case Consume(len) => Consume(len);
    }

    method RunScript(script: seq<Action>)
      requires Valid()
      modifies this`state, this`ledger, channel, channel.poller, socket, inputBuffer, outputBuffer, outputBuffer.data
      ensures Valid() && Others() == old(Others()) && inputBuffer.data == old(inputBuffer.data)
      ensures outputBuffer.data == old(outputBuffer.data) || fresh(outputBuffer.data)
      ensures View() == CM.RunScript(old(View()), script)
      ensures old(state) == Disconnected ==> inputBuffer.Layout() == LeftAfter(old(inputBuffer.Layout()), script)
    {
      var i := 0;
      while i < |script|
        invariant 0 <= i <= |script|
        invariant Valid() && Others() == old(Others()) && inputBuffer.data == old(inputBuffer.data)
        invariant outputBuffer.data == old(outputBuffer.data) || fresh(outputBuffer.data)
        invariant CM.RunScript(View(), script[i..]) == CM.RunScript(old(View()), script)
        invariant old(state) == Disconnected ==>
          && state == Disconnected
          && LeftAfter(inputBuffer.Layout(), script[i..]) == LeftAfter(old(inputBuffer.Layout()), script)
      {
        ghost var before, layout := View(), inputBuffer.Layout();
        Perform(script[i]);
        assert script[i..][0] == script[i] && script[i..][1..] == script[i + 1..];
        assert CM.RunScript(before, script[i..]) == CM.RunScript(View(), script[i + 1..]);
        assert LeftAfter(layout, script[i..]) == LeftAfter(LeftBy(layout, script[i]), script[i + 1..]);
        i := i + 1;
      }
      assert script[i..] == [];
    }

    /** Enter user code: record the call, then run its body. */
    method CallUser(event: Event, script: seq<Action>)
      requires Valid()
      modifies this`state, this`ledger, channel, channel.poller, socket, inputBuffer, outputBuffer, outputBuffer.data
      ensures Valid() && Others() == old(Others()) && inputBuffer.data == old(inputBuffer.data)
      ensures outputBuffer.data == old(outputBuffer.data) || fresh(outputBuffer.data)
      ensures View() == CM.RunScript(Call(old(View()), event), script)
      ensures old(state) == Disconnected ==> inputBuffer.Layout() == LeftAfter(old(inputBuffer.Layout()), script)
    {
      ledger := ledger.(callbacks := ledger.callbacks + [event]);
      RunScript(script);
    }

    // -------------------------------------------------------------- handlers

    method ConnectEstablished(script: seq<Action>)
      requires Valid()
      modifies this`state, this`ledger, channel, channel.poller, socket, inputBuffer, outputBuffer, outputBuffer.data
      ensures Valid() && Others() == old(Others()) && inputBuffer.data == old(inputBuffer.data)
      ensures outputBuffer.data == old(outputBuffer.data) || fresh(outputBuffer.data)
      ensures View() == CM.ConnectEstablished(old(View()), script)
    {
      state := Connected;
      EnableReading();
      CallUser(Connection(state == Connected), script);
    }

    method EnableReading()
      requires Valid()
      modifies channel, channel.poller
      ensures Valid() && Others() == old(Others())
      ensures View() == old(View()).(reg := R.EnableReading(old(View()).reg))
    {
      channel.EnableReading();
    }

    method Disconnect()
      requires Valid()
      modifies this`state, channel, channel.poller
      ensures Valid() && Others() == old(Others()) && state == Disconnected
      ensures View() == old(View()).(state := Disconnected, reg := R.DisableAll(old(View()).reg))
    {
      state := Disconnected;
      channel.DisableAll();
    }

    method Remove()
      requires Valid()
      modifies channel, channel.poller
      ensures Valid() && Others() == old(Others())
      ensures View() == old(View()).(reg := R.RemoveChannel(old(View()).reg))
    {
      channel.Remove();
    }

    method ConnectDestroyed(script: seq<Action>)
      requires Valid()
      modifies this`state, this`ledger, channel, channel.poller, socket, inputBuffer, outputBuffer, outputBuffer.data
      ensures Valid() && Others() == old(Others()) && inputBuffer.data == old(inputBuffer.data)
      ensures outputBuffer.data == old(outputBuffer.data) || fresh(outputBuffer.data)
      ensures View() == CM.ConnectDestroyed(old(View()), script)
    {
      if state == Connected {
        Disconnect();
        CallUser(Connection(state == Connected), script);
      }
      Remove();
    }

    /** The destructor, once the channel has been removed: the poller forgets the
        channel, and its fd may be used by a later connection. */
    ghost method Release()
      requires Valid() && View().reg.index == R.NEW
      modifies channel.poller
      ensures channel.poller.Valid() && channel.poller.owned == old(channel.poller.owned) - {channel}
      ensures channel.poller.regs == old(Others())
    {
      channel.poller.Release(channel);
    }

    method HandleClose(script: seq<Action>)
      requires Valid()
      modifies this`state, this`ledger, channel, channel.poller, socket, inputBuffer, outputBuffer, outputBuffer.data
      ensures Valid() && Others() == old(Others()) && inputBuffer.data == old(inputBuffer.data)
      ensures outputBuffer.data == old(outputBuffer.data) || fresh(outputBuffer.data)
      ensures View() == CM.HandleClose(old(View()), script)
      ensures inputBuffer.Layout() == LeftAfter(old(inputBuffer.Layout()), script)
    {
      Disconnect();
      CallUser(Connection(state == Connected), script);
      RequestClose();
    }

    /** Ask the server to forget this connection (`close_callback_`). */
    ghost method RequestClose()
      requires Valid()
      modifies this`ledger
      ensures Valid()
      ensures View() == old(View()).(ledger := old(View()).ledger.(closeRequests := old(View()).ledger.closeRequests + 1))
    {
      ledger := ledger.(closeRequests := ledger.closeRequests + 1);
    }

    method ReadIn(r: ReadOutcome) returns (n: int)
      requires Valid()
      requires ReadFits(r)
      modifies this`ledger, inputBuffer, inputBuffer.data
      ensures Valid() && (inputBuffer.data == old(inputBuffer.data) || fresh(inputBuffer.data))
      ensures r.ReadFailed? ==> n == -1 && View() == old(View())
      ensures r.Got? ==> n == |r.bytes| && View() == CM.Received(old(View()), r.bytes)
    {
      var savedErrno;
      n, savedErrno := inputBuffer.ReadFd(r);
      if r.Got? {
        ledger := ledger.(received := ledger.received + r.bytes);
      }
    }

    method HandleRead(io: IO)
      requires Valid()
      requires ReadFits(io.read)
      modifies this`state, this`ledger, channel, channel.poller, socket,
               inputBuffer, inputBuffer.data, outputBuffer, outputBuffer.data
      ensures Valid() && Others() == old(Others())
      ensures inputBuffer.data == old(inputBuffer.data) || fresh(inputBuffer.data)
      ensures outputBuffer.data == old(outputBuffer.data) || fresh(outputBuffer.data)
      ensures View() == CM.HandleRead(old(View()), io)
    {
      var n := ReadIn(io.read);
      AfterRead(n, io);
    }

    /** What `HandleRead` does with the result of the read. */
    method AfterRead(n: int, io: IO)
      requires Valid()
      modifies this`state, this`ledger, channel, channel.poller, socket, inputBuffer, outputBuffer, outputBuffer.data
      ensures Valid() && Others() == old(Others()) && inputBuffer.data == old(inputBuffer.data)
      ensures outputBuffer.data == old(outputBuffer.data) || fresh(outputBuffer.data)
      ensures View() ==
        if n > 0 then CM.RunScript(Call(old(View()), Message), io.onMessage)
        else if n == 0 then CM.HandleClose(old(View()), io.onClose)
        else old(View())
    {
      if n > 0 {
        CallUser(Message, io.onMessage);
      } else if n == 0 {
        HandleClose(io.onClose);
      }
    }

    /** The outcome of the next `readv` fits the areas that will be offered to it. */
    ghost predicate ReadFits(r: ReadOutcome)
      reads inputBuffer
    {
      r.Got? ==> M.Legal(inputBuffer.View(), M.Read(r.bytes))
    }

    /** The same for a read that user code precedes, on a closed connection. */
    ghost predicate ReadFitsAfter(r: ReadOutcome, script: seq<Action>)
      reads inputBuffer
    {
      && inputBuffer.Layout().Ok()
      && (r.Got? ==> |r.bytes| <= LeftAfter(inputBuffer.Layout(), script).ReadCapacity())
    }

    /** The hang-up branch of an event. */
    method DispatchClose(hangUp: bool, io: IO)
      requires Valid()
      requires if hangUp then ReadFitsAfter(io.read, io.onClose) else ReadFits(io.read)
      modifies this`state, this`ledger, channel, channel.poller, socket, inputBuffer, outputBuffer, outputBuffer.data
      ensures Valid() && Others() == old(Others()) && inputBuffer.data == old(inputBuffer.data)
      ensures outputBuffer.data == old(outputBuffer.data) || fresh(outputBuffer.data)
      ensures ReadFits(io.read)
      ensures View() == if hangUp then CM.HandleClose(old(View()), io.onClose) else old(View())
    {
      if hangUp {
        HandleClose(io.onClose);
      }
    }

    /** The input and output branches of an event: what the dispatch does when no
        hang-up is reported. */
    method DispatchIO(revents: R.Mask, io: IO)
      requires Valid() && ReadFits(io.read)
      modifies this`state, this`ledger, channel, channel.poller, socket,
               inputBuffer, inputBuffer.data, outputBuffer, outputBuffer.data
      ensures Valid() && Others() == old(Others())
      ensures inputBuffer.data == old(inputBuffer.data) || fresh(inputBuffer.data)
      ensures outputBuffer.data == old(outputBuffer.data) || fresh(outputBuffer.data)
      ensures View() == CM.HandleEvent(old(View()), revents.(hup := false), io)
    {
      if revents.input || revents.pri {
        HandleRead(io);
      }
      if revents.output {
        HandleWrite(io.write);
      }
    }

    /** `Channel::HandleEventWithGuard` with this connection's handlers bound. */
    method HandleEvent(io: IO)
      requires Valid()
      requires if channel.revents.hup && !channel.revents.input
               then ReadFitsAfter(io.read, io.onClose) else ReadFits(io.read)
      modifies this`state, this`ledger, channel, channel.poller, socket,
               inputBuffer, inputBuffer.data, outputBuffer, outputBuffer.data
      ensures Valid() && Others() == old(Others())
      ensures inputBuffer.data == old(inputBuffer.data) || fresh(inputBuffer.data)
      ensures outputBuffer.data == old(outputBuffer.data) || fresh(outputBuffer.data)
      ensures View() == CM.HandleEvent(old(View()), old(channel.revents), io)
    {
      var revents := channel.revents;
      DispatchClose(revents.hup && !revents.input, io);
      DispatchIO(revents, io);
    }
  }
}
