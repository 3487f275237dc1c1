/** The value model of one TCP connection: its state, its two buffers, its
    registration, its socket, and a ledger of what has happened to it. */
module ConnectionModel {
  import opened Basics
  import opened Kernel
  import R = Registration

  datatype TcpState = Connecting | Connected | Disconnecting | Disconnected

  /** Who called `SendInLoop`: code on the loop thread, or a functor posted by
      another thread. */
  datatype Sender = LoopThread | Foreign(id: nat)

  datatype Fate = Accepted | Dropped | Refused

  /** One execution of `SendInLoop`. */
  datatype Sent = Sent(sender: Sender, data: seq<Byte>, fate: Fate)

  /** Functors that the connection queues on its own loop. */
  datatype Task = WriteComplete | HighWater(len: nat)

  /** Calls into user code: the connection callback (with what `IsConnected`
      answers inside it) and the message callback. */
  datatype Event = Connection(up: bool) | Message

  /** The output length after one `SendInLoop` or, when `drain`, one `HandleWrite`. */
  datatype Depth = Depth(len: nat, drain: bool)

  datatype Options = Options(writeComplete: bool, highWater: bool, mark: nat)

  datatype Ledger = Ledger(
    received: seq<Byte>, taken: seq<Byte>, log: seq<Sent>, queued: seq<Task>,
    callbacks: seq<Event>, closeRequests: nat, depths: seq<Depth>)

  datatype Conn = Conn(
    state: TcpState, input: seq<Byte>, output: seq<Byte>, reg: R.Reg,
    options: Options, net: Net, ledger: Ledger)

  function Fresh(options: Options): Conn {
    Conn(Connecting, [], [], R.Unregistered, options, Net([], 0, 0),
         Ledger([], [], [], [], [], 0, [Depth(0, false)]))
  }

  // ------------------------------------------------------------------- ledger

  function Queue(c: Conn, task: Task): Conn {
    c.(ledger := c.ledger.(queued := c.ledger.queued + [task]))
  }

  function Call(c: Conn, event: Event): Conn {
    c.(ledger := c.ledger.(callbacks := c.ledger.callbacks + [event]))
  }

  function Log(c: Conn, sent: Sent): Conn {
    c.(ledger := c.ledger.(log := c.ledger.log + [sent]))
  }

  /** Record the output length, after a send or, when `drain`, after a writable event. */
  function NoteDepth(c: Conn, drain: bool): Conn {
    c.(ledger := c.ledger.(depths := c.ledger.depths + [Depth(|c.output|, drain)]))
  }

  // ------------------------------------------------------------------ sending

  predicate IsFault(w: WriteOutcome) {
    w.WriteFailed? && (w.errno == BrokenPipe || w.errno == ConnReset)
  }

  /** `write` is tried at once only when nothing is waiting to be written. */
  predicate WritesDirectly(c: Conn) {
    !R.IsWriting(c.reg) && c.output == []
  }

  function SendInLoop(c: Conn, who: Sender, data: seq<Byte>, w: WriteOutcome): Conn {
    if c.state == Disconnected then Log(c, Sent(who, data, Refused))
    else if WritesDirectly(c) then SendDirect(c, who, data, w)
    else NoteDepth(Log(BufferRest(c, data), Sent(who, data, Accepted)), false)
  }

  /** Try `write` first; buffer what it did not take, unless the peer is gone. */
  function SendDirect(c: Conn, who: Sender, data: seq<Byte>, w: WriteOutcome): Conn {
    var rest := data[w.Taken(|data|)..];
    var c1 := c.(net := OnWrite(c.net, data, w));
    var c2 := if w.Wrote? && rest == [] && c.options.writeComplete then Queue(c1, WriteComplete) else c1;
    if IsFault(w) then
      NoteDepth(Log(c2, Sent(who, data, Dropped)), false)
    else
      NoteDepth(Log(BufferRest(c2, rest), Sent(who, data, Accepted)), false)
  }

  function BufferRest(c: Conn, rest: seq<Byte>): Conn {
    if rest == [] then
      c
    else
      var total := |c.output| + |rest|;
      var c1 := if total >= c.options.mark && |c.output| < c.options.mark && c.options.highWater
                then Queue(c, HighWater(total)) else c;
      var c2 := c1.(output := c1.output + rest);
      if R.IsWriting(c2.reg) then c2 else c2.(reg := R.EnableWriting(c2.reg))
  }

  function ShutdownInLoop(c: Conn): Conn {
    if R.IsWriting(c.reg) then c else c.(net := OnShutdownWrite(c.net))
  }

  /** One `write` of everything that waits. */
  function WriteOut(c: Conn, w: WriteOutcome): Conn {
    NoteDepth(c.(net := OnWrite(c.net, c.output, w), output := c.output[w.Taken(|c.output|)..]), true)
  }

  /** The output buffer has just been emptied. */
  function FinishDrain(c: Conn): Conn {
    var c1 := c.(reg := R.DisableWriting(c.reg));
    var c2 := if c.options.writeComplete then Queue(c1, WriteComplete) else c1;
    if c2.state == Disconnecting then ShutdownInLoop(c2) else c2
  }

  function HandleWrite(c: Conn, w: WriteOutcome): Conn {
    if !R.IsWriting(c.reg) then c
    else if w.Taken(|c.output|) > 0 && w.Taken(|c.output|) == |c.output| then FinishDrain(WriteOut(c, w))
    else WriteOut(c, w)
  }

  // ---------------------------------------------------------------- user code

  /** What user code on the loop thread may do with the connection. `SendInput`
      is `Send(Buffer*)` on the input buffer that the message callback receives. */
  datatype Action =
    | Send(data: seq<Byte>, w: WriteOutcome)
    | SendInput(w: WriteOutcome)
    | Shutdown
    | Consume(len: nat)

  /** User code takes `len` bytes, or all there are, out of the input buffer. */
  function Take(c: Conn, len: nat): Conn {
    c.(input := Rest(c.input, len), ledger := c.ledger.(taken := c.ledger.taken + Front(c.input, len)))
  }

  function TakeAll(c: Conn): Conn {
    c.(input := [], ledger := c.ledger.(taken := c.ledger.taken + c.input))
  }

  function Act(c: Conn, a: Action): Conn {
    match a
    case Send(data, w) =>
      if c.state == Connected then SendInLoop(c, LoopThread, data, w) else c
    case SendInput(w) =>
      if c.state == Connected then TakeAll(SendInLoop(c, LoopThread, c.input, w)) else c
    case Shutdown =>
      if c.state == Connected then ShutdownInLoop(c.(state := Disconnecting)) else c
    case Consume(len) =>
      Take(c, len)
  }

  /** A callback body: any finite sequence of such actions. */
  function RunScript(c: Conn, script: seq<Action>): Conn
    decreases |script|
  {
    if script == [] then c else RunScript(Act(c, script[0]), script[1..])
  }

  // ----------------------------------------------------------------- handlers

  function ConnectEstablished(c: Conn, script: seq<Action>): Conn {
    var c1 := c.(state := Connected, reg := R.EnableReading(c.reg));
    RunScript(Call(c1, Connection(c1.state == Connected)), script)
  }

  function ConnectDestroyed(c: Conn, script: seq<Action>): Conn {
    var c1 :=
      if c.state == Connected then
        var d := c.(state := Disconnected, reg := R.DisableAll(c.reg));
        RunScript(Call(d, Connection(d.state == Connected)), script)
      else c;
    c1.(reg := R.RemoveChannel(c1.reg))
  }

  function HandleClose(c: Conn, script: seq<Action>): Conn {
    var c1 := c.(state := Disconnected, reg := R.DisableAll(c.reg));
    var c2 := RunScript(Call(c1, Connection(c1.state == Connected)), script);
    c2.(ledger := c2.ledger.(closeRequests := c2.ledger.closeRequests + 1))
  }

  /** The environment's answers during one dispatched event: the outcomes of
      `readv` and `write`, and what the callbacks do. */
  datatype IO = IO(read: ReadOutcome, write: WriteOutcome, onMessage: seq<Action>, onClose: seq<Action>)

  /** `readv` has delivered `bytes` into the input buffer. */
  function Received(c: Conn, bytes: seq<Byte>): Conn {
    c.(input := c.input + bytes, ledger := c.ledger.(received := c.ledger.received + bytes))
  }

  function HandleRead(c: Conn, io: IO): Conn {
    match io.read
    case ReadFailed(_) => c
    case Got(bytes) =>
      var c1 := Received(c, bytes);
      if |bytes| > 0 then RunScript(Call(c1, Message), io.onMessage) else HandleClose(c1, io.onClose)
  }

  /** Dispatch order of one event mask: hang-up, then input, then output. The
      error handler between them only logs. */
  function HandleEvent(c: Conn, revents: R.Mask, io: IO): Conn {
    var c1 := if revents.hup && !revents.input then HandleClose(c, io.onClose) else c;
    var c2 := if revents.input || revents.pri then HandleRead(c1, io) else c1;
    if revents.output then HandleWrite(c2, io.write) else c2
  }

  // ------------------------------------------------------------ derived views

  /** The bytes of all accepted messages, in the order `SendInLoop` ran. */
  function AcceptedBytes(log: seq<Sent>): seq<Byte> {
    if log == [] then []
    else
      var last := log[|log| - 1];
      AcceptedBytes(log[..|log| - 1]) + (if last.fate == Accepted then last.data else [])
  }

  /** The messages that thread `t` handed over, in the order `SendInLoop` ran. */
  function SentBy(t: nat, log: seq<Sent>): seq<seq<Byte>> {
    if log == [] then []
    else
      var last := log[|log| - 1];
      SentBy(t, log[..|log| - 1]) + (if last.sender == Foreign(t) then [last.data] else [])
  }

  function HighWaterCalls(queued: seq<Task>): nat {
    if queued == [] then 0
    else HighWaterCalls(queued[..|queued| - 1]) + (if queued[|queued| - 1].HighWater? then 1 else 0)
  }

  predicate CrossesAt(depths: seq<Depth>, mark: nat, i: int) {
    1 <= i < |depths| && depths[i - 1].len < mark <= depths[i].len
  }

  /** How often the output length rose from below the mark to it or above. */
  function Crossings(depths: seq<Depth>, mark: nat): nat {
    if depths == [] then 0
    else Crossings(depths[..|depths| - 1], mark) + (if CrossesAt(depths, mark, |depths| - 1) then 1 else 0)
  }
}
