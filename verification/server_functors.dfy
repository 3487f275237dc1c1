/** Running one functor of a batch keeps the invariant. */
module ServerFunctors {
  import opened Basics
  import opened ConnectionModel
  import opened ConnectionTheorems
  import opened Functors
  import opened ServerModel
  import opened ServerTheorems
  import opened ServerSteps
  import R = Registration

  predicate Heads(s: Server, l: LoopId, f: Functor) {
    l in s.loops && s.loops[l].batch != [] && s.loops[l].batch[0] == f
  }

  lemma PopAside(s: Server, l: LoopId, d: ConnId)
    requires l in s.loops && s.loops[l].batch != [] && s.loops[l].batch[0].c != d
    requires d in s.conns && s.conns[d].loop in s.loops
    ensures SameFor(s, Popped(s, l), d)
  {
    PopFrom(s, l, d);
  }

  lemma ForgetAside(s: Server, c: ConnId, d: ConnId)
    requires d != c && d in s.conns && s.conns[d].loop in s.loops
    ensures SameFor(s, s.(connections := s.connections - {c}), d)
  {
  }

  lemma RemoveAside(s: Server, c: ConnId, d: ConnId)
    requires c in s.conns && s.conns[c].loop in s.loops
    requires d != c && d in s.conns && s.conns[d].loop in s.loops
    ensures SameFor(s, RemoveConnectionInLoop(s, c), d)
  {
    var e := s.conns[c];
    var s1 := SetEntry(s, c, e.(phase := Dying));
    var s2 := s1.(connections := s1.connections - {c});
    SetAside(s, c, e.(phase := Dying), d);
    ForgetAside(s1, c, d);
    SameTrans(s, s1, s2, d);
    PushAside(s2, e.loop, Destroy(c), d);
    SameTrans(s, s2, Push(s2, e.loop, Destroy(c)), d);
  }

  lemma RunOneAside(s: Server, f: Functor, script: seq<Action>, w: WriteOutcome, d: ConnId)
    requires f.c in s.conns && s.conns[f.c].loop in s.loops
    requires d != f.c && d in s.conns && s.conns[d].loop in s.loops
    ensures SameFor(s, RunOne(s, f, script, w), d)
  {
    if f.RemoveInLoop? {
      RemoveAside(s, f.c, d);
    } else {
      SetAside(s, f.c, RunOne(s, f, script, w).conns[f.c], d);
    }
  }

  lemma PoppedLife(s: Server, l: LoopId, f: Functor, k: LoopId)
    requires Heads(s, l, f) && !f.Deliver? && k in s.loops
    ensures Life(f.c, s.loops[k].Queue())
         == if k == l then [f] + Life(f.c, Popped(s, l).loops[l].Queue()) else Life(f.c, Popped(s, l).loops[k].Queue())
  {
    if k == l {
      var q := s.loops[l].Queue();
      assert q[0] == f && q[1..] == Popped(s, l).loops[l].Queue();
      LifePop(f.c, q);
    }
  }

  /** The life functor at the head of a batch is the only one for its connection,
      and it tells the connection's phase. */
  lemma HeadMeans(s: Server, l: LoopId, f: Functor)
    requires Heads(s, l, f) && !f.Deliver? && f.c in s.conns && PlaceOk(s, f.c)
    ensures var e := s.conns[f.c];
      && (f.Establish? ==> e.phase == Establishing && l == e.loop)
      && (f.RemoveInLoop? ==> e.phase == Closing && l == s.main)
      && (f.Destroy? ==> e.phase == Dying && l == e.loop)
    ensures forall k :: k in s.loops ==> Life(f.c, Popped(s, l).loops[k].Queue()) == []
  {
    var e := s.conns[f.c];
    HeadExpected(s, l, f);
    forall k | k in s.loops ensures Life(f.c, Popped(s, l).loops[k].Queue()) == [] {
      PoppedLife(s, l, f, k);
      assert Life(f.c, s.loops[k].Queue()) == Expected(s.main, e, f.c, k);
    }
  }

  lemma HeadExpected(s: Server, l: LoopId, f: Functor)
    requires Heads(s, l, f) && !f.Deliver? && f.c in s.conns && PlaceOk(s, f.c)
    ensures Expected(s.main, s.conns[f.c], f.c, l) == [f]
  {
    var e := s.conns[f.c];
    PoppedLife(s, l, f, l);
    assert Life(f.c, s.loops[l].Queue()) == Expected(s.main, e, f.c, l);
    assert ([f] + Life(f.c, Popped(s, l).loops[l].Queue()))[0] == f;
    assert |Expected(s.main, e, f.c, l)| <= 1;
  }

  /** A life functor at the head changes nothing in the message order. */
  lemma LifeKeepsWaiting(s: Server, l: LoopId, f: Functor, t: Tid)
    requires Heads(s, l, f) && !f.Deliver? && f.c in s.conns && s.conns[f.c].loop in s.loops
    ensures WaitingBy(t, f.c, Popped(s, l).loops[s.conns[f.c].loop].Queue())
         == WaitingBy(t, f.c, s.loops[s.conns[f.c].loop].Queue())
  {
    var q := s.loops[l].Queue();
    assert q[0] == f && q[1..] == Popped(s, l).loops[l].Queue();
    WaitingPop(t, f.c, q);
    assert [] + WaitingBy(t, f.c, q[1..]) == WaitingBy(t, f.c, q[1..]);
  }

  // ------------------------------------------------------------------ Establish

  lemma EstablishLog(conn: Conn, script: seq<Action>, t: Tid)
    ensures SentBy(t, ConnectEstablished(conn, script).ledger.log) == SentBy(t, conn.ledger.log)
  {
    ScriptLog(Call(conn.(state := Connected, reg := R.EnableReading(conn.reg)), Connection(true)), script, t);
  }

  lemma EstablishOrder(s: Server, l: LoopId, c: ConnId, e: Entry)
    requires Heads(s, l, Establish(c)) && c in s.conns && s.conns[c].loop in s.loops && InOrder(s, c)
    requires e.loop == s.conns[c].loop && e.calls == s.conns[c].calls
    requires forall t :: SentBy(t, e.conn.ledger.log) == SentBy(t, s.conns[c].conn.ledger.log)
    ensures InOrder(SetEntry(Popped(s, l), c, e), c)
  {
    var s' := SetEntry(Popped(s, l), c, e);
    forall t ensures WaitingBy(t, c, s'.loops[e.loop].Queue()) == WaitingBy(t, c, s.loops[e.loop].Queue()) {
      LifeKeepsWaiting(s, l, Establish(c), t);
    }
    OrderLike(s, s', c);
  }

  lemma EstablishEntry(s: Server, l: LoopId, c: ConnId, script: seq<Action>, w: WriteOutcome)
    requires Heads(s, l, Establish(c)) && c in s.conns && s.conns[c].loop in s.loops && EntryOk(s, c)
    ensures EntryOk(RunOne(Popped(s, l), Establish(c), script, w), c)
  {
    var e := s.conns[c];
    var e' := e.(conn := ConnectEstablished(e.conn, script), phase := Alive, established := e.established + 1);
    HeadMeans(s, l, Establish(c));
    EstablishGoesLive(e.conn.options, script);
    forall t ensures SentBy(t, e'.conn.ledger.log) == SentBy(t, e.conn.ledger.log) {
      EstablishLog(e.conn, script, t);
    }
    PopPlace(s, l, Establish(c), e');
    EstablishOrder(s, l, c, e');
    assert RunOne(Popped(s, l), Establish(c), script, w) == SetEntry(Popped(s, l), c, e');
  }

  // --------------------------------------------------------------- RemoveInLoop

  lemma RemoveEntry(s: Server, l: LoopId, c: ConnId, script: seq<Action>, w: WriteOutcome)
    requires Heads(s, l, RemoveInLoop(c)) && c in s.conns && s.conns[c].loop in s.loops && EntryOk(s, c)
    ensures EntryOk(RunOne(Popped(s, l), RemoveInLoop(c), script, w), c)
  {
    HeadMeans(s, l, RemoveInLoop(c));
    PopOrder(s, l, c);
    RemovedEntry(Popped(s, l), c);
  }

  lemma PopOrder(s: Server, l: LoopId, c: ConnId)
    requires Heads(s, l, RemoveInLoop(c)) && c in s.conns && s.conns[c].loop in s.loops && InOrder(s, c)
    ensures InOrder(Popped(s, l), c)
  {
    forall t ensures WaitingBy(t, c, Popped(s, l).loops[s.conns[c].loop].Queue())
      == WaitingBy(t, c, s.loops[s.conns[c].loop].Queue())
    {
      LifeKeepsWaiting(s, l, RemoveInLoop(c), t);
    }
    OrderLike(s, Popped(s, l), c);
  }

  /** Same entry, same waiting messages, same flights: same order. */
  lemma OrderLike(s: Server, s': Server, c: ConnId)
    requires c in s.conns && s.conns[c].loop in s.loops && InOrder(s, c)
    requires c in s'.conns && s'.conns[c].loop == s.conns[c].loop && s.conns[c].loop in s'.loops
    requires s'.conns[c].calls == s.conns[c].calls
    requires forall t :: SentBy(t, s'.conns[c].conn.ledger.log) == SentBy(t, s.conns[c].conn.ledger.log)
    requires forall t :: WaitingBy(t, c, s'.loops[s.conns[c].loop].Queue()) == WaitingBy(t, c, s.loops[s.conns[c].loop].Queue())
    requires s'.flights == s.flights
    ensures InOrder(s', c)
  {
    var e, e' := s.conns[c], s'.conns[c];
    forall t ensures CallsBy(t, e'.calls)
      == SentBy(t, e'.conn.ledger.log) + WaitingBy(t, c, s'.loops[e'.loop].Queue()) + InFlight(s', t, c)
    {
      assert CallsBy(t, e.calls)
        == SentBy(t, e.conn.ledger.log) + WaitingBy(t, c, s.loops[e.loop].Queue()) + InFlight(s, t, c);
      assert InFlight(s', t, c) == InFlight(s, t, c);
    }
  }

  /** The state just before the destruction is queued. */
  function Forgotten(s: Server, c: ConnId): Server
    requires c in s.conns
  {
    SetEntry(s, c, s.conns[c].(phase := Dying)).(connections := s.connections - {c})
  }

  lemma RemovedLife(s: Server, c: ConnId, k: LoopId)
    requires c in s.conns && s.conns[c].loop in s.loops && k in s.loops
    requires Life(c, s.loops[k].Queue()) == []
    ensures Life(c, Push(Forgotten(s, c), s.conns[c].loop, Destroy(c)).loops[k].Queue())
         == if k == s.conns[c].loop then [Destroy(c)] else []
  {
    var q := s.loops[k].Queue();
    if k == s.conns[c].loop {
      assert Push(Forgotten(s, c), k, Destroy(c)).loops[k].Queue() == q + [Destroy(c)];
      LifePush(c, q, Destroy(c));
    }
  }

  lemma RemovedPlace(s: Server, c: ConnId)
    requires c in s.conns && s.conns[c].loop in s.loops
    requires forall k :: k in s.loops ==> Life(c, s.loops[k].Queue()) == []
    ensures PlaceOk(Push(Forgotten(s, c), s.conns[c].loop, Destroy(c)), c)
  {
    var s' := Push(Forgotten(s, c), s.conns[c].loop, Destroy(c));
    forall k | k in s'.loops ensures Life(c, s'.loops[k].Queue()) == Expected(s'.main, s'.conns[c], c, k) {
      RemovedLife(s, c, k);
    }
  }

  lemma RemovedOrder(s: Server, c: ConnId)
    requires c in s.conns && s.conns[c].loop in s.loops && InOrder(s, c)
    ensures InOrder(Push(Forgotten(s, c), s.conns[c].loop, Destroy(c)), c)
  {
    var s1 := Forgotten(s, c);
    var l := s.conns[c].loop;
    var s' := Push(s1, l, Destroy(c));
    PushOnto(s1, l, Destroy(c), c);
    forall t ensures WaitingBy(t, c, s'.loops[l].Queue()) == WaitingBy(t, c, s.loops[l].Queue()) {
      assert WaitingBy(t, c, s'.loops[l].Queue()) == WaitingBy(t, c, s1.loops[l].Queue()) + [];
    }
    OrderLike(s, s', c);
  }

  /** Removal, wherever it is run: the connection leaves the map and its destruction
      is queued on its own loop. */
  lemma RemovedEntry(s: Server, c: ConnId)
    requires c in s.conns && s.conns[c].loop in s.loops && InOrder(s, c)
    requires forall k :: k in s.loops ==> Life(c, s.loops[k].Queue()) == []
    requires ConnOk(s.conns[c].(phase := Dying))
    ensures EntryOk(RemoveConnectionInLoop(s, c), c)
  {
    RemovedPlace(s, c);
    RemovedOrder(s, c);
    assert RemoveConnectionInLoop(s, c) == Push(Forgotten(s, c), s.conns[c].loop, Destroy(c));
  }

  // -------------------------------------------------------------------- Destroy

  /** Running the one functor that waits leaves none, as the next phase calls for. */
  lemma PopPlace(s: Server, l: LoopId, f: Functor, e: Entry)
    requires Heads(s, l, f) && (f.Establish? || f.Destroy?) && f.c in s.conns && PlaceOk(s, f.c)
    requires f.Establish? ==> e.phase == Alive
    requires f.Destroy? ==> e.phase == Destroyed
    ensures PlaceOk(SetEntry(Popped(s, l), f.c, e), f.c)
  {
    HeadMeans(s, l, f);
    var s' := SetEntry(Popped(s, l), f.c, e);
    forall k | k in s'.loops ensures Life(f.c, s'.loops[k].Queue()) == Expected(s'.main, e, f.c, k) {
      assert s'.loops[k] == Popped(s, l).loops[k];
    }
  }

  lemma DestroyEntry(s: Server, l: LoopId, c: ConnId, script: seq<Action>, w: WriteOutcome)
    requires Heads(s, l, Destroy(c)) && c in s.conns && s.conns[c].loop in s.loops && EntryOk(s, c)
    ensures EntryOk(RunOne(Popped(s, l), Destroy(c), script, w), c)
  {
    var s' := RunOne(Popped(s, l), Destroy(c), script, w);
    HeadMeans(s, l, Destroy(c));
    PopPlace(s, l, Destroy(c), s'.conns[c]);
    DestroyAfterClose(s.conns[c].conn, script);
    forall t ensures WaitingBy(t, c, s'.loops[s.conns[c].loop].Queue())
      == WaitingBy(t, c, s.loops[s.conns[c].loop].Queue())
    {
      LifeKeepsWaiting(s, l, Destroy(c), t);
    }
    OrderLike(s, s', c);
  }

  // -------------------------------------------------------------------- Deliver

  /** A message at the head is no life functor: the queues lose none. */
  lemma DeliverLife(s: Server, l: LoopId, f: Functor, k: LoopId)
    requires Heads(s, l, f) && f.Deliver? && k in s.loops
    ensures Life(f.c, Popped(s, l).loops[k].Queue()) == Life(f.c, s.loops[k].Queue())
  {
    if k == l {
      var q := s.loops[l].Queue();
      assert q[0] == f && q[1..] == Popped(s, l).loops[l].Queue();
      LifePop(f.c, q);
    }
  }

  lemma DeliverPlace(s: Server, l: LoopId, f: Functor, script: seq<Action>, w: WriteOutcome)
    requires Heads(s, l, f) && f.Deliver? && f.c in s.conns && PlaceOk(s, f.c)
    ensures PlaceOk(RunOne(Popped(s, l), f, script, w), f.c)
  {
    var e := s.conns[f.c];
    var e' := e.(conn := SendInLoop(e.conn, Foreign(f.sender), f.data, w));
    forall k | k in s.loops ensures Life(f.c, Popped(s, l).loops[k].Queue()) == Expected(s.main, e, f.c, k) {
      DeliverLife(s, l, f, k);
    }
    SetPlace(Popped(s, l), f.c, e');
  }

  lemma SetPlace(s: Server, c: ConnId, e: Entry)
    requires c in s.conns && PlaceOk(s, c) && e.phase == s.conns[c].phase && e.loop == s.conns[c].loop
    ensures PlaceOk(SetEntry(s, c, e), c)
  {
    forall k | k in s.loops ensures Life(c, s.loops[k].Queue()) == Expected(s.main, e, c, k) {
      assert Life(c, s.loops[k].Queue()) == Expected(s.main, s.conns[c], c, k);
    }
  }

  lemma Shift(a: seq<seq<Byte>>, b: seq<seq<Byte>>, c: seq<seq<Byte>>, d: seq<seq<Byte>>)
    ensures a + (b + c) + d == (a + b) + c + d
  {
  }

  lemma DeliverOrder(s: Server, l: LoopId, f: Functor, script: seq<Action>, w: WriteOutcome)
    requires Heads(s, l, f) && f.Deliver? && f.c in s.conns && s.conns[f.c].loop == l && InOrder(s, f.c)
    ensures InOrder(RunOne(Popped(s, l), f, script, w), f.c)
  {
    var s' := RunOne(Popped(s, l), f, script, w);
    var c := f.c;
    var e, e' := s.conns[c], s'.conns[c];
    var q := s.loops[l].Queue();
    assert q[0] == f && q[1..] == s'.loops[l].Queue();
    forall t ensures CallsBy(t, e'.calls)
      == SentBy(t, e'.conn.ledger.log) + WaitingBy(t, c, s'.loops[e'.loop].Queue()) + InFlight(s', t, c)
    {
      assert CallsBy(t, e.calls) == SentBy(t, e.conn.ledger.log) + WaitingBy(t, c, q) + InFlight(s, t, c);
      WaitingPop(t, c, q);
      SendLog(e.conn, Foreign(f.sender), f.data, w, t);
      assert InFlight(s', t, c) == InFlight(s, t, c);
      var head := if f.sender == t then [f.data] else [];
      Shift(SentBy(t, e.conn.ledger.log), head, WaitingBy(t, c, q[1..]), InFlight(s, t, c));
    }
  }

  /** A waiting message means that some call was made. */
  lemma DeliverMeansCalls(s: Server, l: LoopId, f: Functor)
    requires Heads(s, l, f) && f.Deliver? && f.c in s.conns && s.conns[f.c].loop == l && InOrder(s, f.c)
    ensures s.conns[f.c].calls != []
  {
    var c := f.c;
    var e := s.conns[c];
    var q := s.loops[l].Queue();
    var t := f.sender;
    assert q[0] == f;
    WaitingPop(t, c, q);
    assert CallsBy(t, e.calls) == SentBy(t, e.conn.ledger.log) + WaitingBy(t, c, q) + InFlight(s, t, c);
    assert |WaitingBy(t, c, q)| > 0;
  }

  lemma DeliverConn(e: Entry, f: Functor, w: WriteOutcome)
    requires ConnOk(e) && f.Deliver? && e.calls != []
    ensures ConnOk(e.(conn := SendInLoop(e.conn, Foreign(f.sender), f.data, w)))
  {
    if e.phase == Alive {
      SendKeepsLive(e.conn, Foreign(f.sender), f.data, w);
    } else {
      SendOnClosed(e.conn, Foreign(f.sender), f.data, w);
    }
  }

  lemma DeliverEntry(s: Server, l: LoopId, f: Functor, script: seq<Action>, w: WriteOutcome)
    requires Heads(s, l, f) && f.Deliver? && f.c in s.conns && s.conns[f.c].loop == l && EntryOk(s, f.c)
    ensures EntryOk(RunOne(Popped(s, l), f, script, w), f.c)
  {
    DeliverPlace(s, l, f, script, w);
    DeliverOrder(s, l, f, script, w);
    DeliverMeansCalls(s, l, f);
    DeliverConn(s.conns[f.c], f, w);
  }

  // ------------------------------------------------------------------- together

  lemma RunEntry(s: Server, l: LoopId, f: Functor, script: seq<Action>, w: WriteOutcome)
    requires Heads(s, l, f) && f.c in s.conns && s.conns[f.c].loop in s.loops && EntryOk(s, f.c)
    requires f.Deliver? ==> s.conns[f.c].loop == l
    ensures EntryOk(RunOne(Popped(s, l), f, script, w), f.c)
  {
    match f
    case Establish(c) => EstablishEntry(s, l, c, script, w);
    case RemoveInLoop(c) => RemoveEntry(s, l, c, script, w);
    case Destroy(c) => DestroyEntry(s, l, c, script, w);
    case Deliver(_, _, _) => DeliverEntry(s, l, f, script, w);
  }

  lemma HeadKnown(s: Server, l: LoopId, f: Functor)
    requires Homed(s) && Heads(s, l, f)
    ensures f.c in s.conns && (f.Deliver? ==> s.conns[f.c].loop == l)
  {
    assert s.loops[l].Queue()[0] == f;
    assert f in s.loops[l].Queue();
  }

  lemma RunEntries(s: Server, l: LoopId, f: Functor, script: seq<Action>, w: WriteOutcome)
    requires Typed(s) && EntriesOk(s) && Heads(s, l, f) && f.c in s.conns
    requires f.Deliver? ==> s.conns[f.c].loop == l
    requires Typed(RunOne(Popped(s, l), f, script, w))
    ensures EntriesOk(RunOne(Popped(s, l), f, script, w))
  {
    var s1 := Popped(s, l);
    var s' := RunOne(s1, f, script, w);
    assert EntryOk(s, f.c);
    RunEntry(s, l, f, script, w);
    forall d | d in s'.conns && d != f.c ensures d in s.conns && SameFor(s, s', d) {
      PopAside(s, l, d);
      RunOneAside(s1, f, script, w, d);
      SameTrans(s, s1, s', d);
    }
    AllBut(s, s', f.c);
  }

  lemma RunTyped(s: Server, f: Functor, script: seq<Action>, w: WriteOutcome)
    requires Typed(s) && f.c in s.conns
    ensures Typed(RunOne(s, f, script, w))
    ensures RunOne(s, f, script, w).loops.Keys == s.loops.Keys && RunOne(s, f, script, w).main == s.main
  {
  }

  lemma PopHomed(s: Server, l: LoopId)
    requires Homed(s) && l in s.loops && s.loops[l].batch != []
    ensures Homed(Popped(s, l))
  {
    forall k, f | k in s.loops && f in Popped(s, l).loops[k].Queue() ensures f in s.loops[k].Queue() {
      if k == l {
        assert Popped(s, l).loops[l].Queue() == s.loops[l].Queue()[1..];
      }
    }
  }

  lemma RunHomed(s: Server, f: Functor, script: seq<Action>, w: WriteOutcome)
    requires Typed(s) && Homed(s) && f.c in s.conns
    ensures Homed(RunOne(s, f, script, w))
  {
    if f.RemoveInLoop? {
      RemoveHomed(s, f.c);
    } else {
      SetTypedHomed(s, f.c, RunOne(s, f, script, w).conns[f.c]);
    }
  }

  lemma RemoveHomed(s: Server, c: ConnId)
    requires Homed(s) && c in s.conns && s.conns[c].loop in s.loops
    ensures Homed(RemoveConnectionInLoop(s, c))
  {
    var e := s.conns[c];
    var s1 := SetEntry(s, c, e.(phase := Dying)).(connections := s.connections - {c});
    assert Homed(s1);
    PushHomed(s1, e.loop, Destroy(c));
  }

  lemma RunActives(s: Server, l: LoopId, f: Functor, script: seq<Action>, w: WriteOutcome)
    requires ActivesOk(s) && Heads(s, l, f) && s.loops[l].pc == Calling && f.c in s.conns
    requires !f.Deliver? ==> s.conns[f.c].phase != Alive
    ensures ActivesOk(RunOne(Popped(s, l), f, script, w))
  {
    var s' := RunOne(Popped(s, l), f, script, w);
    forall k | k in s'.loops ensures ActiveOk(s', k) {
      assert ActiveOk(s, k);
      ActiveKept(s, s', k);
    }
  }

  lemma RunKeeps(s: Server, l: LoopId, script: seq<Action>, w: WriteOutcome)
    requires Inv(s) && Enabled(s, RunFunctor(l, script, w))
    ensures Inv(Apply(s, RunFunctor(l, script, w)))
  {
    var f := s.loops[l].batch[0];
    HeadKnown(s, l, f);
    PopHomed(s, l);
    RunTyped(Popped(s, l), f, script, w);
    RunHomed(Popped(s, l), f, script, w);
    RunEntries(s, l, f, script, w);
    assert EntryOk(s, f.c);
    if !f.Deliver? { HeadMeans(s, l, f); }
    RunActives(s, l, f, script, w);
  }
}
