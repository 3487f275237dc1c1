/** What every interleaving of the loops and the other threads keeps. */
module ServerTheorems {
  import opened ConnectionModel
  import opened ConnectionTheorems
  import opened Functors
  import opened ServerModel

  // ------------------------------------------------------------------ invariant

  /** The state of a connection is the one its phase calls for. */
  ghost predicate Fits(conn: Conn, phase: Phase) {
    match phase
    case Establishing => conn == Fresh(conn.options)
    case Alive => Live(conn)
    case Closing => Closed(conn)
    case Dying => Closed(conn)
    case Destroyed => Gone(conn)
  }

  /** The one life functor that may wait for `c` in the queue of loop `l`. */
  function Expected(main: LoopId, e: Entry, c: ConnId, l: LoopId): seq<Functor> {
    if e.phase == Establishing && l == e.loop then [Establish(c)]
    else if e.phase == Closing && l == main then [RemoveInLoop(c)]
    else if e.phase == Dying && l == e.loop then [Destroy(c)]
    else []
  }

  /** Per thread: calls made = executed, then waiting, then about to be queued. */
  ghost predicate InOrder(s: Server, c: ConnId)
    requires c in s.conns && s.conns[c].loop in s.loops
  {
    var e := s.conns[c];
    forall t ::
      CallsBy(t, e.calls)
      == SentBy(t, e.conn.ledger.log) + WaitingBy(t, c, s.loops[e.loop].Queue()) + InFlight(s, t, c)
  }

  predicate HeldByMap(phase: Phase) { phase == Establishing || phase == Alive || phase == Closing }

  /** Established once and then destroyed once, in the state its phase calls for;
      graceful if no other thread has sent on it. */
  ghost predicate ConnOk(e: Entry) {
    && Fits(e.conn, e.phase)
    && e.established == (if e.phase == Establishing then 0 else 1)
    && e.destroyed == (if e.phase == Destroyed then 1 else 0)
    && (e.phase == Establishing ==> e.calls == [])
    && (e.calls == [] && e.phase != Establishing ==> HalfClose(e.conn))
  }

  /** The queues hold the one functor that the phase calls for and no other, and the
      server's map holds the connection in the first three phases. */
  ghost predicate PlaceOk(s: Server, c: ConnId)
    requires c in s.conns
  {
    var e := s.conns[c];
    && (forall l :: l in s.loops ==> Life(c, s.loops[l].Queue()) == Expected(s.main, e, c, l))
    && (c in s.connections <==> HeldByMap(e.phase))
  }

  ghost predicate EntryOk(s: Server, c: ConnId)
    requires c in s.conns && s.conns[c].loop in s.loops
  {
    ConnOk(s.conns[c]) && PlaceOk(s, c) && InOrder(s, c)
  }

  ghost predicate Typed(s: Server) {
    && s.main in s.loops
    && (forall c :: c in s.conns ==> s.conns[c].loop in s.loops && c < s.nextId)
    && s.connections <= s.conns.Keys
    && (forall t :: t in s.flights ==> s.flights[t].0 in s.conns)
  }

  ghost predicate EntriesOk(s: Server)
    requires Typed(s)
  {
    forall c :: c in s.conns ==> EntryOk(s, c)
  }

  /** Queues mention known connections, and messages wait at home. */
  ghost predicate Homed(s: Server) {
    forall l, f :: l in s.loops && f in s.loops[l].Queue() ==>
      f.c in s.conns && (f.Deliver? ==> s.conns[f.c].loop == l)
  }

  /** An item still to be dispatched by loop `l`: a registered, living connection. */
  ghost predicate ItemOk(s: Server, l: LoopId, item: Item) {
    match item
    case Ready(c, m) =>
      c in s.conns && s.conns[c].loop == l && s.conns[c].phase == Alive && !ClosesThenReads(m)
    case Accept => l == s.main
  }

  ghost predicate ActiveOk(s: Server, l: LoopId)
    requires l in s.loops
  {
    var lp := s.loops[l];
    && (lp.pc != Calling ==> lp.batch == [])
    && (lp.pc.Dispatching? ==>
          && Distinct(lp.pc.active)
          && forall i :: 0 <= i < |lp.pc.active| ==> ItemOk(s, l, lp.pc.active[i]))
  }

  ghost predicate ActivesOk(s: Server) {
    forall l :: l in s.loops ==> ActiveOk(s, l)
  }

  ghost predicate Inv(s: Server) {
    Typed(s) && Homed(s) && EntriesOk(s) && ActivesOk(s)
  }

  // -------------------------------------------------------------- queue lemmas

  lemma LifePush(c: ConnId, q: seq<Functor>, f: Functor)
    ensures Life(c, q + [f]) == Life(c, q) + (if f.c == c && !f.Deliver? then [f] else [])
  {
    assert (q + [f])[..|q|] == q;
  }

  lemma {:induction false} LifePop(c: ConnId, q: seq<Functor>)
    requires q != []
    ensures Life(c, q) == (if q[0].c == c && !q[0].Deliver? then [q[0]] else []) + Life(c, q[1..])
  {
    var n := |q| - 1;
    if n == 0 {
      assert q[..0] == [] && q[1..] == [];
    } else {
      var rest := q[1..];
      LifePop(c, q[..n]);
      assert q[..n][1..] == rest[..n - 1] && rest[n - 1] == q[n] && q[..n][0] == q[0];
    }
  }

  lemma WaitingPush(t: Tid, c: ConnId, q: seq<Functor>, f: Functor)
    ensures WaitingBy(t, c, q + [f])
         == WaitingBy(t, c, q) + (if f.Deliver? && f.c == c && f.sender == t then [f.data] else [])
  {
    assert (q + [f])[..|q|] == q;
  }

  lemma {:induction false} WaitingPop(t: Tid, c: ConnId, q: seq<Functor>)
    requires q != []
    ensures WaitingBy(t, c, q)
         == (if q[0].Deliver? && q[0].c == c && q[0].sender == t then [q[0].data] else []) + WaitingBy(t, c, q[1..])
  {
    var n := |q| - 1;
    if n == 0 {
      assert q[..0] == [] && q[1..] == [];
    } else {
      var rest := q[1..];
      WaitingPop(t, c, q[..n]);
      assert q[..n][1..] == rest[..n - 1] && rest[n - 1] == q[n] && q[..n][0] == q[0];
    }
  }

  lemma {:induction false} NoneAbout(c: ConnId, q: seq<Functor>)
    requires forall f :: f in q ==> f.c != c
    ensures Life(c, q) == [] && forall t :: WaitingBy(t, c, q) == []
  {
    if q != [] {
      var n := |q| - 1;
      NoneAbout(c, q[..n]);
    }
  }

  lemma CallsPush(t: Tid, calls: seq<Posted>, m: Posted)
    ensures CallsBy(t, calls + [m]) == CallsBy(t, calls) + (if m.sender == t then [m.data] else [])
  {
    assert (calls + [m])[..|calls|] == calls;
  }

  // -------------------------------------------------------------------- frames

  /** Nothing that concerns connection `c` differs between `s` and `s'`. */
  ghost predicate SameFor(s: Server, s': Server, c: ConnId)
    requires c in s.conns && s.conns[c].loop in s.loops
  {
    && c in s'.conns && s'.conns[c] == s.conns[c]
    && s'.main == s.main && s'.loops.Keys == s.loops.Keys
    && (c in s'.connections <==> c in s.connections)
    && (forall l :: l in s.loops ==> Life(c, s'.loops[l].Queue()) == Life(c, s.loops[l].Queue()))
    && (forall t :: WaitingBy(t, c, s'.loops[s.conns[c].loop].Queue()) == WaitingBy(t, c, s.loops[s.conns[c].loop].Queue()))
    && (forall t :: InFlight(s', t, c) == InFlight(s, t, c))
  }

  lemma PlaceSame(s: Server, s': Server, c: ConnId)
    requires c in s.conns && s.conns[c].loop in s.loops && PlaceOk(s, c) && SameFor(s, s', c)
    ensures PlaceOk(s', c)
  {
  }

  lemma OrderSame(s: Server, s': Server, c: ConnId)
    requires c in s.conns && s.conns[c].loop in s.loops && InOrder(s, c) && SameFor(s, s', c)
    ensures InOrder(s', c)
  {
    var e := s.conns[c];
    forall t ensures CallsBy(t, e.calls)
      == SentBy(t, e.conn.ledger.log) + WaitingBy(t, c, s'.loops[e.loop].Queue()) + InFlight(s', t, c)
    {
      assert CallsBy(t, e.calls)
        == SentBy(t, e.conn.ledger.log) + WaitingBy(t, c, s.loops[e.loop].Queue()) + InFlight(s, t, c);
    }
  }

  lemma Untouched(s: Server, s': Server, c: ConnId)
    requires c in s.conns && s.conns[c].loop in s.loops && EntryOk(s, c) && SameFor(s, s', c)
    ensures EntryOk(s', c)
  {
    PlaceSame(s, s', c);
    OrderSame(s, s', c);
  }

  /** If only connection `c` is concerned, only `c` has to be looked at again. */
  lemma AllBut(s: Server, s': Server, c: ConnId)
    requires Typed(s) && EntriesOk(s) && Typed(s')
    requires forall d :: d in s'.conns && d != c ==> d in s.conns && SameFor(s, s', d)
    requires c in s'.conns ==> EntryOk(s', c)
    ensures EntriesOk(s')
  {
    forall d | d in s'.conns ensures EntryOk(s', d) {
      if d != c { Untouched(s, s', d); }
    }
  }

  /** Only program counters moved, and functors from queue to batch. */
  ghost predicate OnlyPcs(s: Server, s': Server) {
    && s' == s.(loops := s'.loops) && s'.loops.Keys == s.loops.Keys
    && forall l :: l in s.loops ==> s'.loops[l].Queue() == s.loops[l].Queue()
  }

  lemma OnlyPcsAside(s: Server, s': Server, c: ConnId)
    requires OnlyPcs(s, s') && c in s.conns && s.conns[c].loop in s.loops
    ensures SameFor(s, s', c)
  {
  }

  lemma OnlyPcsHomed(s: Server, s': Server)
    requires OnlyPcs(s, s') && Homed(s)
    ensures Homed(s')
  {
    forall l, f | l in s'.loops && f in s'.loops[l].Queue()
      ensures f.c in s'.conns && (f.Deliver? ==> s'.conns[f.c].loop == l)
    {
      assert f in s.loops[l].Queue();
    }
  }

  /** The same when no connection is concerned. */
  lemma SameQueues(s: Server, s': Server)
    requires Typed(s) && Homed(s) && EntriesOk(s) && OnlyPcs(s, s')
    ensures Typed(s') && Homed(s') && EntriesOk(s')
  {
    OnlyPcsHomed(s, s');
    assert Typed(s');
    forall d | d in s'.conns ensures EntryOk(s', d) {
      assert EntryOk(s, d);
      OnlyPcsAside(s, s', d);
      Untouched(s, s', d);
    }
  }

  /** Active lists stay sound when no connection stops being alive. */
  lemma ActiveKept(s: Server, s': Server, l: LoopId)
    requires l in s.loops && l in s'.loops && ActiveOk(s, l)
    requires s'.main == s.main && s'.loops[l].pc == s.loops[l].pc
    requires s'.loops[l].pc != Calling ==> s'.loops[l].batch == []
    requires forall c :: c in s.conns && s.conns[c].loop == l && s.conns[c].phase == Alive ==>
               c in s'.conns && s'.conns[c].loop == l && s'.conns[c].phase == Alive
    ensures ActiveOk(s', l)
  {
    var lp := s.loops[l];
    if lp.pc.Dispatching? {
      forall i | 0 <= i < |lp.pc.active| ensures ItemOk(s', l, lp.pc.active[i]) {
        assert ItemOk(s, l, lp.pc.active[i]);
      }
    }
  }
}
