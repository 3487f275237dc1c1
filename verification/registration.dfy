/** The value model of one channel's registration: the channel's own record
    (`index`, `events`), the poller's map, and the kernel's interest list. */
module Registration {
  import opened Basics

  /** The five `epoll_event` bits that the library reads or writes, one Boolean
      each; the bitwise operators act on each bit apart. */
  datatype Mask = Mask(input: bool, pri: bool, output: bool, err: bool, hup: bool) {
    function Or(m: Mask): Mask {
      Mask(input || m.input, pri || m.pri, output || m.output, err || m.err, hup || m.hup)
    }

    function And(m: Mask): Mask {
      Mask(input && m.input, pri && m.pri, output && m.output, err && m.err, hup && m.hup)
    }

    function Not(): Mask {
      Mask(!input, !pri, !output, !err, !hup)
    }
  }

  const NONE_EVENT := Mask(false, false, false, false, false)
  const IN := NONE_EVENT.(input := true)
  const PRI := NONE_EVENT.(pri := true)
  const OUT := NONE_EVENT.(output := true)
  const ERR := NONE_EVENT.(err := true)
  const HUP := NONE_EVENT.(hup := true)
  const READ_EVENT := IN.Or(PRI)
  const WRITE_EVENT := OUT

  const NEW: int := -1
  const ADDED: int := 1
  const DELETED: int := 2

  datatype CtlOp = Add | Mod | Del

  /** `mapped`: the poller's map leads from the fd to this channel. `kernel`: the
      interest mask the kernel holds for the fd. `rejected`: some `epoll_ctl` for
      the fd has failed (a failed add or modify ends the process). */
  datatype Reg = Reg(index: int, events: Mask, mapped: bool, kernel: Option<Mask>, rejected: bool)

  const Unregistered := Reg(NEW, NONE_EVENT, false, None, false)

  function Ctl(r: Reg, op: CtlOp): Reg {
    match op
    case Add => if r.kernel.None? then r.(kernel := Some(r.events)) else r.(rejected := true)
    case Mod => if r.kernel.Some? then r.(kernel := Some(r.events)) else r.(rejected := true)
    case Del => if r.kernel.Some? then r.(kernel := None) else r.(rejected := true)
  }

  function Update(r: Reg): Reg {
    if r.index == NEW then Ctl(r.(mapped := true, index := ADDED), Add)
    else if r.index == DELETED then Ctl(r.(index := ADDED), Add)
    else if r.events == NONE_EVENT then Ctl(r.(index := DELETED), Del)
    else Ctl(r, Mod)
  }

  function RemoveChannel(r: Reg): Reg {
    var gone := r.(mapped := false);
    (if gone.index == ADDED then Ctl(gone, Del) else gone).(index := NEW)
  }

  function EnableReading(r: Reg): Reg { Update(r.(events := r.events.Or(READ_EVENT))) }

  function DisableReading(r: Reg): Reg { Update(r.(events := r.events.And(READ_EVENT.Not()))) }

  function EnableWriting(r: Reg): Reg { Update(r.(events := r.events.Or(WRITE_EVENT))) }

  function DisableWriting(r: Reg): Reg { Update(r.(events := r.events.And(WRITE_EVENT.Not()))) }

  function DisableAll(r: Reg): Reg { Update(r.(events := NONE_EVENT)) }

  predicate IsWriting(r: Reg) { r.events.And(WRITE_EVENT) != NONE_EVENT }

  datatype Call = CallEnableReading | CallDisableReading | CallEnableWriting | CallDisableWriting | CallDisableAll | CallRemove

  function Apply(r: Reg, call: Call): Reg {
    match call
    case CallEnableReading => EnableReading(r)
    case CallDisableReading => DisableReading(r)
    case CallEnableWriting => EnableWriting(r)
    case CallDisableWriting => DisableWriting(r)
    case CallDisableAll => DisableAll(r)
    case CallRemove => RemoveChannel(r)
  }

  function Run(r: Reg, calls: seq<Call>): Reg
    decreases |calls|
  {
    if calls == [] then r else Run(Apply(r, calls[0]), calls[1..])
  }

  /** What holds between a change of `events` and the registration call after it. */
  predicate Coherent(r: Reg) {
    && r.index in {NEW, ADDED, DELETED}
    && (r.index == ADDED <==> r.kernel.Some?)
    && (r.mapped <==> r.index != NEW)
    && !r.rejected
  }

  /** The three records agree: added means present in the kernel with exactly the
      channel's mask, deleted means absent with an empty mask, and the map knows
      the channel unless it is new. */
  predicate Agrees(r: Reg) {
    && Coherent(r)
    && (r.index == ADDED ==> r.kernel == Some(r.events))
    && (r.index == DELETED ==> r.events == NONE_EVENT)
  }

  lemma UpdateAgrees(r: Reg)
    requires Coherent(r)
    ensures Agrees(Update(r)) && Update(r).events == r.events
  {
  }

  /** Any sequence of enable, disable and remove calls on a channel keeps the three
      records in agreement, and every `epoll_ctl` it causes is accepted. */
  lemma {:induction false} AnyCallsAgree(r: Reg, calls: seq<Call>)
    requires Agrees(r)
    ensures Agrees(Run(r, calls))
    decreases |calls|
  {
    if calls != [] {
      AnyCallsAgree(Apply(r, calls[0]), calls[1..]);
    }
  }

  lemma FromConstruction(calls: seq<Call>)
    ensures var r := Run(Unregistered, calls);
      && !r.rejected
      && (r.index == ADDED <==> r.kernel == Some(r.events))
      && (r.index == DELETED ==> r.events == NONE_EVENT && r.kernel.None?)
      && (r.index != NEW <==> r.mapped)
  {
    AnyCallsAgree(Unregistered, calls);
  }

  /** `DisableAll` takes the fd out of the kernel exactly when the channel was
      added; on a new or deleted channel it adds the fd with an empty mask. */
  lemma DisableAllUnregisters(r: Reg)
    requires Agrees(r)
    ensures DisableAll(r).kernel == None <==> r.index == ADDED
    ensures r.index != ADDED ==> DisableAll(r).kernel == Some(NONE_EVENT)
  {
  }

  /** The interest that a call leaves, from the bits before it. */
  function EventsAfter(e: Mask, call: Call): Mask {
    match call
    case CallEnableReading => Mask(true, true, e.output, e.err, e.hup)
    case CallDisableReading => Mask(false, false, e.output, e.err, e.hup)
    case CallEnableWriting => Mask(e.input, e.pri, true, e.err, e.hup)
    case CallDisableWriting => Mask(e.input, e.pri, false, e.err, e.hup)
    case CallDisableAll => Mask(false, false, false, false, false)
    case CallRemove => e
  }

  /** What any update leaves in the map and in the kernel. */
  lemma UpdateEffect(r: Reg)
    requires Coherent(r)
    ensures var d := Update(r);
      && d.events == r.events && d.mapped
      && d.kernel == (if r.index == ADDED && r.events == Mask(false, false, false, false, false) then None else Some(r.events))
  {
  }

  /** Each call bit by bit: which bits of interest it sets, which it clears, and what
      the kernel then watches for. */
  lemma CallsInBits(r: Reg, call: Call)
    requires Agrees(r)
    ensures var d := Apply(r, call);
      && d.events == EventsAfter(r.events, call) && d.mapped == !call.CallRemove?
      && d.kernel == (
           if call.CallRemove? || (r.index == ADDED && d.events == Mask(false, false, false, false, false)) then None
           else Some(d.events))
    ensures IsWriting(r) <==> r.events.output
  {
    UpdateEffect(r.(events := EventsAfter(r.events, call)));
  }

  // ------------------------------------------------- masks of a live connection

  /** The mask asks for both kinds of input, for output exactly when `pending`, and
      for nothing else. */
  predicate InterestBits(m: Mask, pending: bool) {
    m.input && m.pri && (m.output <==> pending) && !m.err && !m.hup
  }

  /** The interest a connection should hold: reading, and writing while output waits. */
  function Wanted(pending: bool): Mask {
    if pending then READ_EVENT.Or(WRITE_EVENT) else READ_EVENT
  }

  lemma WantedMasks(r: Reg, pending: bool)
    requires Agrees(r) && r.index == ADDED && r.events == Wanted(pending)
    ensures IsWriting(r) <==> pending
    ensures EnableWriting(r) == r.(events := Wanted(true), kernel := Some(Wanted(true)))
    ensures DisableWriting(r) == r.(events := Wanted(false), kernel := Some(Wanted(false)))
    ensures DisableAll(r) == r.(index := DELETED, events := NONE_EVENT, kernel := None)
  {
  }

  lemma EstablishMask()
    ensures EnableReading(Unregistered) == Reg(ADDED, Wanted(false), true, Some(Wanted(false)), false)
    ensures InterestBits(Wanted(false), false) && InterestBits(Wanted(true), true)
  {
  }
}
