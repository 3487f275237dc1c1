/** Dispatching one active channel keeps the invariant. */
module ServerDispatch {
  import opened ConnectionModel
  import opened ConnectionTheorems
  import opened Functors
  import opened ServerModel
  import opened ServerTheorems
  import opened ServerSteps
  import opened ServerFunctors
  import R = Registration

  /** The state in which the handler of the first active channel runs. */
  function Taken(s: Server, l: LoopId): Server
    requires l in s.loops && s.loops[l].pc.Dispatching? && s.loops[l].pc.active != []
  {
    SetPc(s, l, Dispatching(s.loops[l].pc.active[1..]))
  }

  lemma TakenKeeps(s: Server, l: LoopId)
    requires Typed(s) && Homed(s) && EntriesOk(s)
    requires l in s.loops && s.loops[l].pc.Dispatching? && s.loops[l].pc.active != []
    ensures Typed(Taken(s, l)) && Homed(Taken(s, l)) && EntriesOk(Taken(s, l))
  {
    var s' := Taken(s, l);
    assert forall k :: k in s.loops ==> s'.loops[k].Queue() == s.loops[k].Queue();
    SameQueues(s, s');
  }

  lemma TakenActives(s: Server, l: LoopId)
    requires ActivesOk(s) && l in s.loops && s.loops[l].pc.Dispatching? && s.loops[l].pc.active != []
    ensures ActivesOk(Taken(s, l))
  {
    var s' := Taken(s, l);
    var active := s.loops[l].pc.active;
    forall k | k in s'.loops ensures ActiveOk(s', k) {
      assert ActiveOk(s, k);
      if k != l {
        ActiveKept(s, s', k);
      } else {
        forall i | 0 <= i < |active[1..]| ensures ItemOk(s', l, active[1..][i]) {
          assert ItemOk(s, l, active[i + 1]);
        }
      }
    }
  }

  // ------------------------------------------------------------- a connection event

  /** What an event may leave of a living connection: a sound record that is open or
      closed, with no foreign message executed. */
  ghost predicate EventLeaves(e: Entry, conn: Conn) {
    && e.conn.ledger.closeRequests == 0
    && ConnOk(if conn.ledger.closeRequests == 0 then e.(conn := conn) else e.(conn := conn, phase := Closing))
    && forall t :: SentBy(t, conn.ledger.log) == SentBy(t, e.conn.ledger.log)
  }

  lemma EventConn(e: Entry, m: R.Mask, io: IO)
    requires ConnOk(e) && e.phase == Alive && !ClosesThenReads(m)
    ensures EventLeaves(e, HandleEvent(e.conn, m, io))
  {
    EventKeeps(e.conn, m, io);
    forall t ensures SentBy(t, HandleEvent(e.conn, m, io).ledger.log) == SentBy(t, e.conn.ledger.log) {
      EventLog(e.conn, m, io, t);
    }
  }

  lemma AliveHasNoFunctor(s: Server, c: ConnId)
    requires c in s.conns && PlaceOk(s, c) && s.conns[c].phase == Alive
    ensures forall k :: k in s.loops ==> Life(c, s.loops[k].Queue()) == []
  {
    forall k | k in s.loops ensures Life(c, s.loops[k].Queue()) == [] {
      assert Life(c, s.loops[k].Queue()) == Expected(s.main, s.conns[c], c, k);
    }
  }

  lemma ClosingPlace(s: Server, c: ConnId)
    requires c in s.conns && s.main in s.loops && c in s.connections
    requires forall k :: k in s.loops ==> Life(c, s.loops[k].Queue()) == []
    ensures PlaceOk(Push(SetEntry(s, c, s.conns[c].(phase := Closing)), s.main, RemoveInLoop(c)), c)
  {
    var s' := Push(SetEntry(s, c, s.conns[c].(phase := Closing)), s.main, RemoveInLoop(c));
    var q := s.loops[s.main].Queue();
    assert s'.loops[s.main].Queue() == q + [RemoveInLoop(c)];
    LifePush(c, q, RemoveInLoop(c));
    forall k | k in s'.loops ensures Life(c, s'.loops[k].Queue()) == Expected(s'.main, s'.conns[c], c, k) {
      if k != s.main { assert s'.loops[k] == s.loops[k]; }
    }
  }

  lemma ClosingOrder(s: Server, c: ConnId)
    requires c in s.conns && s.conns[c].loop in s.loops && s.main in s.loops && InOrder(s, c)
    ensures InOrder(Push(SetEntry(s, c, s.conns[c].(phase := Closing)), s.main, RemoveInLoop(c)), c)
  {
    var s' := Push(SetEntry(s, c, s.conns[c].(phase := Closing)), s.main, RemoveInLoop(c));
    var q := s.loops[s.main].Queue();
    assert s'.loops[s.main].Queue() == q + [RemoveInLoop(c)];
    forall t ensures WaitingBy(t, c, s'.loops[s.conns[c].loop].Queue())
      == WaitingBy(t, c, s.loops[s.conns[c].loop].Queue())
    {
      WaitingPush(t, c, q, RemoveInLoop(c));
      assert WaitingBy(t, c, q) + [] == WaitingBy(t, c, q);
    }
    OrderLike(s, s', c);
  }

  /** The close callback on the main loop removes at once, elsewhere it posts. */
  lemma RemoveConnectionEntry(s: Server, l: LoopId, c: ConnId)
    requires c in s.conns && s.conns[c].loop in s.loops && s.main in s.loops && c in s.connections && InOrder(s, c)
    requires forall k :: k in s.loops ==> Life(c, s.loops[k].Queue()) == []
    requires ConnOk(s.conns[c].(phase := Closing))
    ensures EntryOk(RemoveConnection(s, l, c), c)
  {
    if l == s.main {
      RemovedEntry(s, c);
    } else {
      ClosingPlace(s, c);
      ClosingOrder(s, c);
    }
  }

  lemma SetConnOrder(s: Server, c: ConnId, conn: Conn)
    requires c in s.conns && s.conns[c].loop in s.loops && InOrder(s, c)
    requires forall t :: SentBy(t, conn.ledger.log) == SentBy(t, s.conns[c].conn.ledger.log)
    ensures InOrder(SetEntry(s, c, s.conns[c].(conn := conn)), c)
  {
    OrderLike(s, SetEntry(s, c, s.conns[c].(conn := conn)), c);
  }

  // ---------------------------------------------------------------------- removal

  /** No loop has connection `c` still to dispatch. */
  ghost predicate NoneActive(s: Server, c: ConnId) {
    forall k, item :: k in s.loops && s.loops[k].pc.Dispatching? && item in s.loops[k].pc.active && item.Ready? ==> item.c != c
  }

  /** Where removal is asked for: the invariant holds but for `c`, which has closed,
      is still in the server's map, and has nothing queued. */
  ghost predicate AwaitsRemoval(s: Server, c: ConnId) {
    && Typed(s) && Homed(s) && ActivesOk(s) && NoneActive(s, c)
    && (forall d :: d in s.conns && d != c ==> EntryOk(s, d))
    && c in s.conns && c in s.connections && InOrder(s, c)
    && (forall k :: k in s.loops ==> Life(c, s.loops[k].Queue()) == [])
    && ConnOk(s.conns[c].(phase := Closing))
  }

  lemma RemovalAside(s: Server, l: LoopId, c: ConnId, d: ConnId)
    requires c in s.conns && s.conns[c].loop in s.loops && s.main in s.loops
    requires d != c && d in s.conns && s.conns[d].loop in s.loops
    ensures SameFor(s, RemoveConnection(s, l, c), d)
  {
    if l == s.main {
      RemoveAside(s, c, d);
    } else {
      var e := s.conns[c].(phase := Closing);
      SetAside(s, c, e, d);
      PushAside(SetEntry(s, c, e), s.main, RemoveInLoop(c), d);
      SameTrans(s, SetEntry(s, c, e), Push(SetEntry(s, c, e), s.main, RemoveInLoop(c)), d);
    }
  }

  lemma RemovalTypedHomed(s: Server, l: LoopId, c: ConnId)
    requires Typed(s) && Homed(s) && c in s.conns
    ensures var s' := RemoveConnection(s, l, c);
      Typed(s') && Homed(s') && s'.loops.Keys == s.loops.Keys && s'.main == s.main
  {
    if l == s.main {
      RemoveHomed(s, c);
    } else {
      var e := s.conns[c].(phase := Closing);
      SetTypedHomed(s, c, e);
      PushHomed(SetEntry(s, c, e), s.main, RemoveInLoop(c));
    }
  }

  lemma RemovalPcs(s: Server, l: LoopId, c: ConnId, k: LoopId)
    requires c in s.conns && k in s.loops
    ensures var s' := RemoveConnection(s, l, c);
      k in s'.loops && s'.loops[k].pc == s.loops[k].pc && s'.loops[k].batch == s.loops[k].batch
  {
  }

  /** No active list mentions the connection, so its removal leaves every channel
      still to be dispatched alive. */
  lemma RemovalActives(s: Server, l: LoopId, c: ConnId)
    requires Typed(s) && ActivesOk(s) && NoneActive(s, c) && c in s.conns
    requires RemoveConnection(s, l, c).loops.Keys == s.loops.Keys && RemoveConnection(s, l, c).main == s.main
    ensures ActivesOk(RemoveConnection(s, l, c))
  {
    var s' := RemoveConnection(s, l, c);
    forall k | k in s'.loops ensures ActiveOk(s', k) {
      assert ActiveOk(s, k);
      RemovalPcs(s, l, c, k);
      if s.loops[k].pc.Dispatching? {
        var active := s.loops[k].pc.active;
        forall i | 0 <= i < |active| ensures ItemOk(s', k, active[i]) {
          assert ItemOk(s, k, active[i]) && active[i] in active;
          if active[i].Ready? { RemovalAside(s, l, c, active[i].c); }
        }
      }
    }
  }

  /** Removal, on whichever loop's thread it is asked for, restores the invariant. */
  lemma RemovalKeeps(s: Server, l: LoopId, c: ConnId)
    requires AwaitsRemoval(s, c)
    ensures Inv(RemoveConnection(s, l, c))
    ensures RemoveConnection(s, l, c).conns[c].phase == if l == s.main then Dying else Closing
  {
    var s' := RemoveConnection(s, l, c);
    RemovalTypedHomed(s, l, c);
    RemovalActives(s, l, c);
    RemoveConnectionEntry(s, l, c);
    forall d | d in s'.conns ensures EntryOk(s', d) {
      if d != c {
        RemovalAside(s, l, c, d);
        Untouched(s, s', d);
      }
    }
  }

  // -------------------------------------------------------------------- the event

  lemma HandledAside(s: Server, l: LoopId, c: ConnId, conn: Conn, d: ConnId)
    requires c in s.conns && s.conns[c].loop in s.loops && s.main in s.loops
    requires d != c && d in s.conns && s.conns[d].loop in s.loops
    ensures SameFor(s, Handled(s, l, c, conn), d)
  {
    var e := s.conns[c].(conn := conn);
    SetAside(s, c, e, d);
    if conn.ledger.closeRequests > s.conns[c].conn.ledger.closeRequests {
      RemovalAside(SetEntry(s, c, e), l, c, d);
      SameTrans(s, SetEntry(s, c, e), RemoveConnection(SetEntry(s, c, e), l, c), d);
    }
  }

  lemma DispatchKeeps(s: Server, l: LoopId, io: IO)
    requires Inv(s) && Enabled(s, Dispatch(l, io))
    ensures Inv(Apply(s, Dispatch(l, io)))
  {
    var active := s.loops[l].pc.active;
    assert ActiveOk(s, l);
    assert ItemOk(s, l, active[0]);
    TakenKeeps(s, l);
    TakenActives(s, l);
    TakenNoneActive(s, l);
    EventKeepsInv(Taken(s, l), l, active[0].c, active[0].revents, io);
  }

  /** A loop that has taken a channel has it no second time, nor has another loop. */
  lemma TakenNoneActive(s: Server, l: LoopId)
    requires ActivesOk(s) && l in s.loops && s.loops[l].pc.Dispatching?
    requires s.loops[l].pc.active != [] && s.loops[l].pc.active[0].Ready?
    ensures NoneActive(Taken(s, l), s.loops[l].pc.active[0].c)
  {
    var s' := Taken(s, l);
    var c := s.loops[l].pc.active[0].c;
    assert ActiveOk(s, l);
    assert ItemOk(s, l, s.loops[l].pc.active[0]);
    forall k, item | k in s'.loops && s'.loops[k].pc.Dispatching? && item in s'.loops[k].pc.active && item.Ready?
      ensures item.c != c
    {
      assert ActiveOk(s, k);
      var active := s.loops[k].pc.active;
      if k == l {
        var i :| 0 <= i < |active[1..]| && active[1..][i] == item;
        assert active[i + 1] == item;
      } else {
        var i :| 0 <= i < |active| && active[i] == item;
        assert ItemOk(s, k, active[i]);
      }
    }
  }

  lemma EventKeepsInv(s: Server, l: LoopId, c: ConnId, m: R.Mask, io: IO)
    requires Inv(s) && NoneActive(s, c) && c in s.conns && s.conns[c].phase == Alive && !ClosesThenReads(m)
    ensures Inv(Handled(s, l, c, HandleEvent(s.conns[c].conn, m, io)))
  {
    assert ConnOk(s.conns[c]) by { assert EntryOk(s, c); }
    EventConn(s.conns[c], m, io);
    HandledKeeps(s, l, c, HandleEvent(s.conns[c].conn, m, io));
  }

  lemma HandledKeeps(s: Server, l: LoopId, c: ConnId, conn: Conn)
    requires Inv(s) && NoneActive(s, c) && c in s.conns && s.conns[c].phase == Alive
    requires EventLeaves(s.conns[c], conn)
    ensures Inv(Handled(s, l, c, conn))
  {
    if conn.ledger.closeRequests == 0 {
      NewConnKeeps(s, c, conn);
    } else {
      CloseKeepsInv(s, l, c, conn);
    }
  }

  /** The event has closed the connection. */
  lemma CloseKeepsInv(s: Server, l: LoopId, c: ConnId, conn: Conn)
    requires Inv(s) && NoneActive(s, c) && c in s.conns && s.conns[c].phase == Alive
    requires ConnOk(s.conns[c].(conn := conn, phase := Closing))
    requires conn.ledger.closeRequests > s.conns[c].conn.ledger.closeRequests
    requires forall t :: SentBy(t, conn.ledger.log) == SentBy(t, s.conns[c].conn.ledger.log)
    ensures Inv(Handled(s, l, c, conn))
  {
    var e := s.conns[c].(conn := conn);
    ClosedAwaits(s, c, e);
    RemovalKeeps(SetEntry(s, c, e), l, c);
    assert Handled(s, l, c, conn) == RemoveConnection(SetEntry(s, c, e), l, c);
  }

  /** After the close handler has run, the connection awaits its removal. */
  lemma ClosedAwaits(s: Server, c: ConnId, e: Entry)
    requires Inv(s) && NoneActive(s, c) && c in s.conns && s.conns[c].phase == Alive
    requires e == s.conns[c].(conn := e.conn) && ConnOk(e.(phase := Closing))
    requires forall t :: SentBy(t, e.conn.ledger.log) == SentBy(t, s.conns[c].conn.ledger.log)
    ensures AwaitsRemoval(SetEntry(s, c, e), c)
  {
    SetFrame(s, c, e);
    assert c in s.connections && InOrder(SetEntry(s, c, e), c) by {
      assert EntryOk(s, c);
      SetConnOrder(s, c, e.conn);
    }
    assert forall k :: k in s.loops ==> Life(c, s.loops[k].Queue()) == [] by {
      assert EntryOk(s, c);
      AliveHasNoFunctor(s, c);
    }
  }

  /** Where `RemoveConnection` is called from: an event that has closed its connection,
      and a removal functor at the head of the main loop's batch. */
  lemma EventLeavesTaken(s: Server, l: LoopId, io: IO)
    requires Inv(s) && Enabled(s, Dispatch(l, io))
    ensures var item := s.loops[l].pc.active[0]; var s1 := Taken(s, l);
      && item.c in s.conns && Inv(Apply(s, Dispatch(l, io)))
      && var e := s.conns[item.c].(conn := HandleEvent(s.conns[item.c].conn, item.revents, io));
         e.conn.ledger.closeRequests > s.conns[item.c].conn.ledger.closeRequests ==>
           AwaitsRemoval(SetEntry(s1, item.c, e), item.c)
  {
    var item := s.loops[l].pc.active[0];
    var e := s.conns[item.c];
    DispatchKeeps(s, l, io);
    assert e.phase == Alive && !ClosesThenReads(item.revents) && ConnOk(e) by {
      assert ActiveOk(s, l);
      assert ItemOk(s, l, item);
      assert EntryOk(s, item.c);
    }
    EventConn(e, item.revents, io);
    TakenKeeps(s, l);
    TakenActives(s, l);
    TakenNoneActive(s, l);
    var conn := HandleEvent(e.conn, item.revents, io);
    if conn.ledger.closeRequests > e.conn.ledger.closeRequests {
      ClosedAwaits(Taken(s, l), item.c, e.(conn := conn));
    }
  }

  lemma FunctorAwaits(s: Server, l: LoopId, f: Functor)
    requires Inv(s) && Heads(s, l, f) && s.loops[l].pc == Calling
    ensures f.c in s.conns
    ensures f.RemoveInLoop? ==> AwaitsRemoval(Popped(s, l), f.c)
  {
    HeadKnown(s, l, f);
    if f.RemoveInLoop? {
      var s1 := Popped(s, l);
      var c := f.c;
      assert EntryOk(s, c);
      HeadMeans(s, l, f);
      PopHomed(s, l);
      PopActives(s, l);
      PopOrder(s, l, c);
      assert NoneActive(s1, c) by { ClosingNotActive(s1, c); }
      forall d | d in s.conns && d != c ensures EntryOk(s1, d) {
        assert EntryOk(s, d);
        PopAside(s, l, d);
        Untouched(s, s1, d);
      }
    }
  }

  lemma PopActives(s: Server, l: LoopId)
    requires ActivesOk(s) && l in s.loops && s.loops[l].batch != [] && s.loops[l].pc == Calling
    ensures ActivesOk(Popped(s, l))
  {
    ActivesKept(s, Popped(s, l));
  }

  lemma ClosingNotActive(s: Server, c: ConnId)
    requires ActivesOk(s) && c in s.conns && s.conns[c].phase != Alive
    ensures NoneActive(s, c)
  {
    forall k, item | k in s.loops && s.loops[k].pc.Dispatching? && item in s.loops[k].pc.active && item.Ready?
      ensures item.c != c
    {
      assert ActiveOk(s, k);
      var i :| 0 <= i < |s.loops[k].pc.active| && s.loops[k].pc.active[i] == item;
      assert ItemOk(s, k, s.loops[k].pc.active[i]);
    }
  }

  // ---------------------------------------------------------------- a new connection

  lemma FreshUnknown(s: Server)
    requires Typed(s) && Homed(s)
    ensures s.nextId !in s.conns && s.nextId !in s.connections
    ensures forall k :: k in s.loops ==> Life(s.nextId, s.loops[k].Queue()) == []
    ensures forall k, t :: k in s.loops ==> WaitingBy(t, s.nextId, s.loops[k].Queue()) == []
    ensures forall t :: InFlight(s, t, s.nextId) == []
  {
    forall k | k in s.loops
      ensures Life(s.nextId, s.loops[k].Queue()) == []
      ensures forall t :: WaitingBy(t, s.nextId, s.loops[k].Queue()) == []
    {
      forall f | f in s.loops[k].Queue() ensures f.c != s.nextId {}
      NoneAbout(s.nextId, s.loops[k].Queue());
    }
  }

  lemma NewAliveEntry(s: Server, options: Options, script: seq<Action>)
    requires Typed(s) && Homed(s)
    ensures EntryOk(NewConnection(s, s.main, options, script), s.nextId)
  {
    var s' := NewConnection(s, s.main, options, script);
    FreshUnknown(s);
    EstablishGoesLive(options, script);
    forall t ensures SentBy(t, ConnectEstablished(Fresh(options), script).ledger.log) == [] {
      EstablishLog(Fresh(options), script, t);
    }
    forall t ensures InFlight(s', t, s.nextId) == [] {
      assert InFlight(s, t, s.nextId) == [];
    }
  }

  lemma NewQueuedEntry(s: Server, target: LoopId, options: Options, script: seq<Action>)
    requires Typed(s) && Homed(s) && target in s.loops && target != s.main
    ensures EntryOk(NewConnection(s, target, options, script), s.nextId)
  {
    var c := s.nextId;
    var s' := NewConnection(s, target, options, script);
    FreshUnknown(s);
    var q := s.loops[target].Queue();
    assert s'.loops[target].Queue() == q + [Establish(c)];
    LifePush(c, q, Establish(c));
    forall t ensures WaitingBy(t, c, s'.loops[target].Queue()) == [] {
      WaitingPush(t, c, q, Establish(c));
    }
    forall t ensures InFlight(s', t, c) == [] {
      assert InFlight(s, t, c) == [];
    }
  }

  /** The server's state with the new connection entered, nothing queued yet. */
  function Entered(s: Server, e: Entry): Server {
    SetEntry(s.(nextId := s.nextId + 1, connections := s.connections + {s.nextId}), s.nextId, e)
  }

  lemma EnteredAside(s: Server, e: Entry, d: ConnId)
    requires d in s.conns && d != s.nextId && s.conns[d].loop in s.loops
    ensures SameFor(s, Entered(s, e), d)
  {
  }

  lemma NewAside(s: Server, target: LoopId, options: Options, script: seq<Action>, d: ConnId)
    requires target in s.loops && d in s.conns && d != s.nextId && s.conns[d].loop in s.loops
    ensures SameFor(s, NewConnection(s, target, options, script), d)
  {
    if target == s.main {
      EnteredAside(s, Entry(target, ConnectEstablished(Fresh(options), script), Alive, 1, 0, []), d);
    } else {
      var s1 := Entered(s, Entry(target, Fresh(options), Establishing, 0, 0, []));
      EnteredAside(s, Entry(target, Fresh(options), Establishing, 0, 0, []), d);
      PushAside(s1, target, Establish(s.nextId), d);
      SameTrans(s, s1, Push(s1, target, Establish(s.nextId)), d);
    }
  }

  lemma NewTyped(s: Server, target: LoopId, options: Options, script: seq<Action>)
    requires Typed(s) && target in s.loops
    ensures Typed(NewConnection(s, target, options, script))
  {
  }

  lemma NewHomed(s: Server, target: LoopId, options: Options, script: seq<Action>)
    requires Typed(s) && Homed(s) && target in s.loops
    ensures Homed(NewConnection(s, target, options, script))
  {
    var c := s.nextId;
    var s1 := s.(nextId := c + 1, connections := s.connections + {c});
    assert c !in s.conns;
    var s2 := SetEntry(s1, c, Entry(target, Fresh(options), Establishing, 0, 0, []));
    assert Homed(s2);
    if target != s.main {
      PushHomed(s2, target, Establish(c));
    }
  }

  lemma NewEntries(s: Server, target: LoopId, options: Options, script: seq<Action>)
    requires Typed(s) && Homed(s) && EntriesOk(s) && target in s.loops
    requires Typed(NewConnection(s, target, options, script))
    ensures EntriesOk(NewConnection(s, target, options, script))
  {
    var s' := NewConnection(s, target, options, script);
    if target == s.main { NewAliveEntry(s, options, script); } else { NewQueuedEntry(s, target, options, script); }
    forall d | d in s'.conns && d != s.nextId ensures d in s.conns && SameFor(s, s', d) {
      NewAside(s, target, options, script, d);
    }
    AllBut(s, s', s.nextId);
  }

  lemma NewActives(s: Server, target: LoopId, options: Options, script: seq<Action>)
    requires ActivesOk(s) && Typed(s) && target in s.loops
    ensures ActivesOk(NewConnection(s, target, options, script))
  {
    ActivesKept(s, NewConnection(s, target, options, script));
  }

  lemma NewKeeps(s: Server, target: LoopId, options: Options, script: seq<Action>)
    requires Inv(s) && target in s.loops
    ensures Inv(NewConnection(s, target, options, script))
  {
    NewTyped(s, target, options, script);
    NewHomed(s, target, options, script);
    NewEntries(s, target, options, script);
    NewActives(s, target, options, script);
  }

  lemma AcceptKeeps(s: Server, l: LoopId, target: LoopId, options: Options, script: seq<Action>)
    requires Inv(s) && Enabled(s, DispatchAccept(l, target, options, script))
    ensures Inv(Apply(s, DispatchAccept(l, target, options, script)))
  {
    TakenKeeps(s, l);
    TakenActives(s, l);
    NewKeeps(Taken(s, l), target, options, script);
  }
}
