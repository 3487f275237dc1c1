/** The echo server's message callback, end to end over one connection. */
module Echo {
  import opened Basics
  import opened ConnectionModel
  import opened ConnectionTheorems
  import R = Registration

  /** One event as the kernel decides it: the mask, the chunk read, and how much of
      the reply and of the waiting output it takes. */
  datatype Event = Event(revents: R.Mask, read: ReadOutcome, reply: WriteOutcome, write: WriteOutcome)

  /** The callback on a given input: take everything out, then send it back. */
  function EchoScript(msg: seq<Byte>, reply: WriteOutcome): seq<Action> {
    [Consume(|msg|), Send(msg, reply)]
  }

  function EchoIO(c: Conn, e: Event): IO {
    IO(e.read, e.write, if e.read.Got? then EchoScript(c.input + e.read.bytes, e.reply) else [], [])
  }

  function Serve(c: Conn, e: Event): Conn {
    HandleEvent(c, e.revents, EchoIO(c, e))
  }

  predicate LegalRun(c: Conn, es: seq<Event>)
    decreases |es|
  {
    es != [] ==> c.reg.kernel.Some? && !ClosesThenReads(es[0].revents) && LegalRun(Serve(c, es[0]), es[1..])
  }

  function Run(c: Conn, es: seq<Event>): Conn
    decreases |es|
  {
    if es == [] then c else Run(Serve(c, es[0]), es[1..])
  }

  // --------------------------------------------------------------- message bytes

  function AllBytes(log: seq<Sent>): seq<Byte> {
    if log == [] then [] else AllBytes(log[..|log| - 1]) + log[|log| - 1].data
  }

  predicate NothingDropped(log: seq<Sent>) {
    forall i :: 0 <= i < |log| ==> log[i].fate == Accepted
  }

  predicate NoneEmpty(log: seq<Sent>) {
    forall i :: 0 <= i < |log| ==> log[i].data != []
  }

  lemma AllOne(log: seq<Sent>, s: Sent)
    ensures AllBytes(log + [s]) == AllBytes(log) + s.data
  {
    assert (log + [s])[..|log|] == log;
  }

  lemma {:induction false} AcceptedIsAllIff(log: seq<Sent>)
    requires NoneEmpty(log)
    ensures |AcceptedBytes(log)| <= |AllBytes(log)|
    ensures |AcceptedBytes(log)| == |AllBytes(log)| ==> NothingDropped(log)
    ensures NothingDropped(log) ==> AcceptedBytes(log) == AllBytes(log)
  {
    if log != [] {
      var n := |log| - 1;
      AcceptedIsAllIff(log[..n]);
      assert log == log[..n] + [log[n]];
    }
  }

  // ------------------------------------------------------------------- invariant

  /** Every byte received has been handed to `SendInLoop`, one message a chunk. */
  ghost predicate Echoing(c: Conn) {
    && ((Live(c) && c.state == Connected) || Closed(c))
    && c.input == []
    && AllBytes(c.ledger.log) == c.ledger.received
    && NoneEmpty(c.ledger.log)
  }

  lemma ScriptIsOneSend(c: Conn, reply: WriteOutcome)
    ensures RunScript(c, EchoScript(c.input, reply)) == Act(TakeAll(c), Send(c.input, reply))
  {
    var script := EchoScript(c.input, reply);
    var c1 := Act(c, script[0]);
    FrontAndRest(c.input, |c.input|);
    assert c1 == TakeAll(c);
    assert script[1..] == [Send(c.input, reply)] && script[1..][1..] == [];
    assert RunScript(c1, script[1..]) == RunScript(Act(c1, script[1]), []);
  }

  lemma ReplyKeeps(c: Conn, bytes: seq<Byte>, reply: WriteOutcome)
    requires Echoing(c) && Live(c) && bytes != []
    ensures var d := RunScript(Call(Received(c, bytes), Message), EchoScript(bytes, reply));
      Echoing(d) && Live(d)
  {
    var c1 := Call(Received(c, bytes), Message);
    assert c1.input == bytes;
    ScriptIsOneSend(c1, reply);
    assert Live(TakeAll(c1));
    SentKeeps(TakeAll(c1), bytes, reply);
  }

  lemma SentKeeps(c: Conn, bytes: seq<Byte>, reply: WriteOutcome)
    requires Live(c) && c.state == Connected && c.input == [] && bytes != []
    requires AllBytes(c.ledger.log) + bytes == c.ledger.received
    requires NoneEmpty(c.ledger.log)
    ensures Echoing(SendInLoop(c, LoopThread, bytes, reply)) && Live(SendInLoop(c, LoopThread, bytes, reply))
  {
    var sent := Sent(LoopThread, bytes, if Drops(c, reply) then Dropped else Accepted);
    SendKeepsLive(c, LoopThread, bytes, reply);
    SendEffect(c, LoopThread, bytes, reply);
    AllOne(c.ledger.log, sent);
    StillNoneEmpty(c.ledger.log, sent);
  }

  lemma StillNoneEmpty(log: seq<Sent>, s: Sent)
    requires NoneEmpty(log) && s.data != []
    ensures NoneEmpty(log + [s])
  {
  }

  lemma ReadKeepsEcho(c: Conn, e: Event)
    requires Echoing(c) && Live(c)
    ensures Echoing(HandleRead(c, EchoIO(c, e)))
  {
    ReadKeeps(c, EchoIO(c, e));
    if e.read.Got? {
      assert c.input + e.read.bytes == e.read.bytes;
      if e.read.bytes == [] {
        assert c.ledger.received + [] == c.ledger.received;
        assert HandleRead(c, EchoIO(c, e)) == HandleClose(c, []);
      } else {
        ReplyKeeps(c, e.read.bytes, e.reply);
      }
    }
  }

  lemma ServeKeeps(c: Conn, e: Event)
    requires Echoing(c) && c.reg.kernel.Some? && !ClosesThenReads(e.revents)
    ensures Echoing(Serve(c, e))
  {
    var io := EchoIO(c, e);
    if e.revents.hup && !e.revents.input {
      CloseGoesClosed(c, []);
    } else {
      var c2 := if e.revents.input || e.revents.pri then HandleRead(c, io) else c;
      ReadKeepsEcho(c, e);
      if e.revents.output && Live(c2) {
        WriteKeepsLive(c2, io.write);
        WriteKeepsReceived(c2, io.write);
      }
    }
  }

  lemma WriteKeepsReceived(c: Conn, w: WriteOutcome)
    ensures HandleWrite(c, w).ledger.received == c.ledger.received && HandleWrite(c, w).input == c.input
  {
  }

  lemma {:induction false} RunKeeps(c: Conn, es: seq<Event>)
    requires Echoing(c) && LegalRun(c, es)
    ensures Echoing(Run(c, es))
    decreases |es|
  {
    if es != [] {
      ServeKeeps(c, es[0]);
      RunKeeps(Serve(c, es[0]), es[1..]);
    }
  }

  // ------------------------------------------------------------ which replies drop

  /** The event runs the read handler on a chunk, without closing first. */
  predicate Reads(e: Event) {
    (e.revents.input || (e.revents.pri && !e.revents.hup)) && e.read.Got? && e.read.bytes != []
  }

  /** The event's reply meets a broken or reset connection on its immediate write. */
  predicate DropsReply(c: Conn, e: Event) {
    Reads(e) && c.state == Connected && Drops(c, e.reply)
  }

  predicate NoDrop(c: Conn, es: seq<Event>)
    decreases |es|
  {
    es != [] ==> !DropsReply(c, es[0]) && NoDrop(Serve(c, es[0]), es[1..])
  }

  lemma ReplyLog(c: Conn, e: Event)
    requires Echoing(c) && Live(c) && e.read.Got? && e.read.bytes != []
    ensures HandleRead(c, EchoIO(c, e)).ledger.log
         == c.ledger.log + [Sent(LoopThread, e.read.bytes, if Drops(c, e.reply) then Dropped else Accepted)]
  {
    var bytes := e.read.bytes;
    assert c.input + bytes == bytes;
    var c1 := Call(Received(c, bytes), Message);
    ScriptIsOneSend(c1, e.reply);
    SendEffect(TakeAll(c1), LoopThread, bytes, e.reply);
  }

  /** An event logs at most its reply. */
  lemma ServeLog(c: Conn, e: Event)
    requires Echoing(c) && c.reg.kernel.Some? && !ClosesThenReads(e.revents)
    ensures Serve(c, e).ledger.log == c.ledger.log +
      if Reads(e) then [Sent(LoopThread, e.read.bytes, if DropsReply(c, e) then Dropped else Accepted)] else []
  {
    var io := EchoIO(c, e);
    var c1 := if e.revents.hup && !e.revents.input then HandleClose(c, []) else c;
    var c2 := if e.revents.input || e.revents.pri then HandleRead(c1, io) else c1;
    WriteLog(c2, io.write);
    if Reads(e) { ReplyLog(c, e); }
  }

  lemma {:induction false} NothingDroppedIff(c: Conn, es: seq<Event>)
    requires Echoing(c) && LegalRun(c, es)
    ensures NothingDropped(Run(c, es).ledger.log) <==> NothingDropped(c.ledger.log) && NoDrop(c, es)
    decreases |es|
  {
    if es != [] {
      ServeKeeps(c, es[0]);
      ServeLog(c, es[0]);
      NothingDroppedIff(Serve(c, es[0]), es[1..]);
      assert Serve(c, es[0]).ledger.log[..|c.ledger.log|] == c.ledger.log;
      LogGrows(c.ledger.log, Serve(c, es[0]).ledger.log, DropsReply(c, es[0]));
    }
  }

  lemma LogGrows(log: seq<Sent>, log': seq<Sent>, drop: bool)
    requires log <= log' && |log'| <= |log| + 1
    requires drop ==> |log'| == |log| + 1
    requires |log'| == |log| + 1 ==> log'[|log|].fate == if drop then Dropped else Accepted
    ensures NothingDropped(log') <==> NothingDropped(log) && !drop
  {
    if NothingDropped(log') {
      forall i | 0 <= i < |log| ensures log[i].fate == Accepted { assert log'[i] == log[i]; }
    }
  }

  /** However input is chunked and output is taken, what has gone out followed by
      what waits is what came in, exactly as long as no event has brought a chunk
      whose reply was written at once to a broken or reset connection. */
  lemma EndToEnd(options: Options, es: seq<Event>)
    requires LegalRun(ConnectEstablished(Fresh(options), []), es)
    ensures var c0 := ConnectEstablished(Fresh(options), []);
      var c := Run(c0, es);
      c.net.wire + c.output == c.ledger.received <==> NoDrop(c0, es)
  {
    var c0 := ConnectEstablished(Fresh(options), []);
    EstablishGoesLive(options, []);
    RunKeeps(c0, es);
    NothingDroppedIff(c0, es);
    var c := Run(c0, es);
    assert Stream(c);
    AcceptedIsAllIff(c.ledger.log);
  }

  lemma FreshlyUp(options: Options)
    ensures var c := ConnectEstablished(Fresh(options), []);
      && Echoing(c) && Live(c) && c.reg == LiveReg(false)
      && c.ledger.log == [] && c.ledger.received == [] && c.output == []
  {
    EstablishGoesLive(options, []);
  }

  lemma OneEvent(c: Conn, e: Event)
    requires c.reg.kernel.Some? && !ClosesThenReads(e.revents)
    ensures LegalRun(c, [e]) && Run(c, [e]) == Serve(c, e)
  {
    assert [e][1..] == [];
    assert Run(Serve(c, e), []) == Serve(c, e);
  }

  /** What a lost reply leaves: the byte is received, and accepted nowhere. */
  lemma LostReply(c: Conn, e: Event)
    requires Echoing(c) && Live(c) && c.reg == LiveReg(false) && c.ledger.log == [] && DropsReply(c, e)
    requires !ClosesThenReads(e.revents)
    ensures var d := Serve(c, e); d.ledger.received == e.read.bytes && d.net.wire + d.output == []
  {
    var d := Serve(c, e);
    var sent := Sent(LoopThread, e.read.bytes, Dropped);
    ServeKeeps(c, e);
    ServeLog(c, e);
    assert d.ledger.log == [] + [sent];
    AllOne([], sent);
    LogOne([], sent);
    assert Stream(d) && AllBytes(d.ledger.log) == d.ledger.received;
  }

  /** A run that loses a reply: one byte comes in, and the immediate write of the
      reply meets a broken connection. */
  lemma ReplyCanBeDropped(options: Options)
    ensures exists es ::
      var c0 := ConnectEstablished(Fresh(options), []);
      && LegalRun(c0, es) && Run(c0, es).ledger.received == [65]
      && Run(c0, es).net.wire + Run(c0, es).output == []
  {
    var c0 := ConnectEstablished(Fresh(options), []);
    var e := Event(R.IN, Got([65]), WriteFailed(BrokenPipe), Wrote(0));
    FreshlyUp(options);
    OneEvent(c0, e);
    LostReply(c0, e);
  }
}
