/** Each step of ServerModel keeps the invariant of ServerTheorems. */
module ServerSteps {
  import opened Basics
  import opened ConnectionModel
  import opened ConnectionTheorems
  import opened Functors
  import opened ServerModel
  import opened ServerTheorems

  // ------------------------------------------------------------- small effects

  lemma PushOnto(s: Server, l: LoopId, f: Functor, c: ConnId)
    requires l in s.loops
    ensures forall k :: k in s.loops ==>
      Life(c, Push(s, l, f).loops[k].Queue())
      == Life(c, s.loops[k].Queue()) + (if k == l && f.c == c && !f.Deliver? then [f] else [])
    ensures forall k, t :: k in s.loops ==>
      WaitingBy(t, c, Push(s, l, f).loops[k].Queue())
      == WaitingBy(t, c, s.loops[k].Queue())
         + (if k == l && f.Deliver? && f.c == c && f.sender == t then [f.data] else [])
  {
    var q := s.loops[l].Queue();
    assert Push(s, l, f).loops[l].Queue() == q + [f];
    LifePush(c, q, f);
    forall t ensures WaitingBy(t, c, q + [f])
      == WaitingBy(t, c, q) + (if f.Deliver? && f.c == c && f.sender == t then [f.data] else [])
    {
      WaitingPush(t, c, q, f);
    }
  }

  lemma SameTrans(s: Server, s1: Server, s2: Server, d: ConnId)
    requires d in s.conns && s.conns[d].loop in s.loops && SameFor(s, s1, d) && SameFor(s1, s2, d)
    ensures SameFor(s, s2, d)
  {
  }

  lemma PushAside(s: Server, l: LoopId, f: Functor, d: ConnId)
    requires l in s.loops && f.c != d && d in s.conns && s.conns[d].loop in s.loops
    ensures SameFor(s, Push(s, l, f), d)
  {
    PushOnto(s, l, f, d);
  }

  /** Removing the head of the batch of loop `l`. */
  function Popped(s: Server, l: LoopId): Server
    requires l in s.loops && s.loops[l].batch != []
  {
    s.(loops := s.loops[l := s.loops[l].(batch := s.loops[l].batch[1..])])
  }

  lemma PopFrom(s: Server, l: LoopId, c: ConnId)
    requires l in s.loops && s.loops[l].batch != []
    ensures var f := s.loops[l].batch[0];
      forall k :: k in s.loops ==>
        Life(c, s.loops[k].Queue())
        == (if k == l && f.c == c && !f.Deliver? then [f] else []) + Life(c, Popped(s, l).loops[k].Queue())
    ensures var f := s.loops[l].batch[0];
      forall k, t :: k in s.loops ==>
        WaitingBy(t, c, s.loops[k].Queue())
        == (if k == l && f.Deliver? && f.c == c && f.sender == t then [f.data] else [])
           + WaitingBy(t, c, Popped(s, l).loops[k].Queue())
  {
    var q := s.loops[l].Queue();
    assert q[0] == s.loops[l].batch[0] && q[1..] == Popped(s, l).loops[l].Queue();
    LifePop(c, q);
    forall t ensures WaitingBy(t, c, q)
      == (if q[0].Deliver? && q[0].c == c && q[0].sender == t then [q[0].data] else []) + WaitingBy(t, c, q[1..])
    {
      WaitingPop(t, c, q);
    }
  }

  /** Only a connection that is alive is watched by the kernel, or connected. */
  lemma WatchedIsAlive(e: Entry)
    requires ConnOk(e)
    ensures e.conn.reg.kernel.Some? ==> e.phase == Alive
    ensures e.conn.state == Connected ==> e.phase == Alive
  {
  }

  // --------------------------------------------------------- program counter steps

  lemma PollKeeps(s: Server, l: LoopId, active: seq<Item>)
    requires Inv(s) && Enabled(s, Poll(l, active))
    ensures Inv(Apply(s, Poll(l, active)))
  {
    var s' := Apply(s, Poll(l, active));
    SameQueues(s, s');
    forall k | k in s'.loops ensures ActiveOk(s', k) {
      assert ActiveOk(s, k);
      if k != l { ActiveKept(s, s', k); } else { PollActive(s, l, active); }
    }
  }

  lemma PollActive(s: Server, l: LoopId, active: seq<Item>)
    requires Typed(s) && EntriesOk(s) && l in s.loops && s.loops[l].batch == [] && Reportable(s, l, active)
    ensures ActiveOk(SetPc(s, l, Dispatching(active)), l)
  {
    forall i | 0 <= i < |active| ensures ItemOk(s, l, active[i]) {
      if active[i].Ready? {
        assert EntryOk(s, active[i].c);
        WatchedIsAlive(s.conns[active[i].c]);
      }
    }
    forall i | 0 <= i < |active| ensures ItemOk(SetPc(s, l, Dispatching(active)), l, active[i]) {
      assert ItemOk(s, l, active[i]);
    }
  }

  lemma BeginKeeps(s: Server, l: LoopId)
    requires Inv(s) && Enabled(s, BeginFunctors(l))
    ensures Inv(Apply(s, BeginFunctors(l)))
  {
    var s' := Apply(s, BeginFunctors(l));
    assert OnlyPcs(s, s') by {
      assert ActiveOk(s, l);
      assert s'.loops[l].Queue() == s.loops[l].Queue();
    }
    assert ActivesOk(s') by { OthersActive(s, s', l); }
    SameQueues(s, s');
  }

  lemma EndKeeps(s: Server, l: LoopId)
    requires Inv(s) && Enabled(s, EndFunctors(l))
    ensures Inv(Apply(s, EndFunctors(l)))
  {
    var s' := Apply(s, EndFunctors(l));
    assert ActivesOk(s') by { OthersActive(s, s', l); }
    SameQueues(s, s');
  }

  /** One loop has moved, and it has nothing left to dispatch. */
  lemma OthersActive(s: Server, s': Server, l: LoopId)
    requires ActivesOk(s) && l in s.loops && l in s'.loops && s' == s.(loops := s.loops[l := s'.loops[l]])
    requires !s'.loops[l].pc.Dispatching? && (s'.loops[l].pc != Calling ==> s'.loops[l].batch == [])
    ensures ActivesOk(s')
  {
    forall k | k in s'.loops ensures ActiveOk(s', k) {
      if k != l {
        assert ActiveOk(s, k);
        ActiveKept(s, s', k);
      }
    }
  }

  // ------------------------------------------------------------------- user code

  /** A new state for `c` with the same executed foreign messages. */
  lemma NewConn(s: Server, c: ConnId, conn: Conn)
    requires c in s.conns && s.conns[c].loop in s.loops && EntryOk(s, c)
    requires ConnOk(s.conns[c].(conn := conn))
    requires forall t :: SentBy(t, conn.ledger.log) == SentBy(t, s.conns[c].conn.ledger.log)
    ensures EntryOk(SetEntry(s, c, s.conns[c].(conn := conn)), c)
  {
    var s' := SetEntry(s, c, s.conns[c].(conn := conn));
    var e := s.conns[c];
    forall l | l in s'.loops ensures Life(c, s'.loops[l].Queue()) == Expected(s'.main, s'.conns[c], c, l) {
      assert Life(c, s.loops[l].Queue()) == Expected(s.main, e, c, l);
    }
    forall t ensures CallsBy(t, e.calls)
      == SentBy(t, conn.ledger.log) + WaitingBy(t, c, s'.loops[e.loop].Queue()) + InFlight(s', t, c)
    {
      assert CallsBy(t, e.calls)
        == SentBy(t, e.conn.ledger.log) + WaitingBy(t, c, s.loops[e.loop].Queue()) + InFlight(s, t, c);
    }
  }

  lemma UserCodeConn(e: Entry, script: seq<Action>)
    requires ConnOk(e) && e.established > 0
    ensures ConnOk(e.(conn := RunScript(e.conn, script)))
    ensures forall t :: SentBy(t, RunScript(e.conn, script).ledger.log) == SentBy(t, e.conn.ledger.log)
  {
    forall t ensures SentBy(t, RunScript(e.conn, script).ledger.log) == SentBy(t, e.conn.ledger.log) {
      ScriptLog(e.conn, script, t);
    }
    if e.phase == Alive {
      ScriptKeepsLive(e.conn, script);
    } else {
      ScriptOnClosed(e.conn, script);
    }
  }

  lemma ActivesKept(s: Server, s': Server)
    requires ActivesOk(s) && s'.loops.Keys == s.loops.Keys && s'.main == s.main
    requires forall l :: l in s.loops ==>
               s'.loops[l].pc == s.loops[l].pc && (s.loops[l].batch == [] ==> s'.loops[l].batch == [])
    requires forall c :: c in s.conns && s.conns[c].phase == Alive ==>
               c in s'.conns && s'.conns[c].loop == s.conns[c].loop && s'.conns[c].phase == Alive
    ensures ActivesOk(s')
  {
    forall l | l in s'.loops ensures ActiveOk(s', l) {
      assert ActiveOk(s, l);
      ActiveKept(s, s', l);
    }
  }

  lemma SetAside(s: Server, c: ConnId, e: Entry, d: ConnId)
    requires d in s.conns && d != c && s.conns[d].loop in s.loops
    ensures SameFor(s, SetEntry(s, c, e), d)
  {
  }

  /** A new entry for `c` on the same loop. */
  lemma SetTypedHomed(s: Server, c: ConnId, e: Entry)
    requires Typed(s) && Homed(s) && c in s.conns && e.loop == s.conns[c].loop
    ensures Typed(SetEntry(s, c, e)) && Homed(SetEntry(s, c, e))
  {
  }

  lemma SetOthers(s: Server, c: ConnId, e: Entry)
    requires Typed(s) && EntriesOk(s) && c in s.conns
    ensures forall d :: d in s.conns && d != c ==> EntryOk(SetEntry(s, c, e), d)
  {
    forall d | d in s.conns && d != c ensures EntryOk(SetEntry(s, c, e), d) {
      assert EntryOk(s, d);
      SetAside(s, c, e, d);
      Untouched(s, SetEntry(s, c, e), d);
    }
  }

  lemma SetActives(s: Server, c: ConnId, e: Entry)
    requires ActivesOk(s) && c in s.conns && e.loop == s.conns[c].loop && e.phase == s.conns[c].phase
    ensures ActivesOk(SetEntry(s, c, e))
  {
    ActivesKept(s, SetEntry(s, c, e));
  }

  /** A new entry on the same loop and in the same phase: only `c` itself has to be
      looked at again. */
  lemma SetFrame(s: Server, c: ConnId, e: Entry)
    requires Inv(s) && c in s.conns && e.loop == s.conns[c].loop && e.phase == s.conns[c].phase
    ensures var s' := SetEntry(s, c, e); Typed(s') && Homed(s') && ActivesOk(s')
    ensures forall d :: d in s.conns && d != c ==> EntryOk(SetEntry(s, c, e), d)
  {
    assert ActivesOk(SetEntry(s, c, e)) by { SetActives(s, c, e); }
    assert Typed(SetEntry(s, c, e)) && Homed(SetEntry(s, c, e)) by { SetTypedHomed(s, c, e); }
    SetOthers(s, c, e);
  }

  /** The same with a new state that suits the phase and has executed the same
      foreign messages. */
  lemma NewConnKeeps(s: Server, c: ConnId, conn: Conn)
    requires Inv(s) && c in s.conns && ConnOk(s.conns[c].(conn := conn))
    requires forall t :: SentBy(t, conn.ledger.log) == SentBy(t, s.conns[c].conn.ledger.log)
    ensures Inv(SetEntry(s, c, s.conns[c].(conn := conn)))
  {
    var s' := SetEntry(s, c, s.conns[c].(conn := conn));
    SetFrame(s, c, s.conns[c].(conn := conn));
    assert EntryOk(s', c) by {
      assert EntryOk(s, c);
      NewConn(s, c, conn);
    }
  }

  lemma UserCodeKeeps(s: Server, l: LoopId, c: ConnId, script: seq<Action>)
    requires Inv(s) && Enabled(s, UserCode(l, c, script))
    ensures Inv(Apply(s, UserCode(l, c, script)))
  {
    assert EntryOk(s, c);
    UserCodeConn(s.conns[c], script);
    NewConnKeeps(s, c, RunScript(s.conns[c].conn, script));
  }

  // ----------------------------------------------------------------- foreign Send

  lemma CheckOrder(s: Server, t: Tid, c: ConnId, data: seq<Byte>)
    requires Enabled(s, CheckState(t, c, data)) && s.conns[c].loop in s.loops && InOrder(s, c)
    ensures InOrder(Apply(s, CheckState(t, c, data)), c)
  {
    var s' := Apply(s, CheckState(t, c, data));
    var e, e' := s.conns[c], s'.conns[c];
    forall u ensures CallsBy(u, e'.calls)
      == SentBy(u, e'.conn.ledger.log) + WaitingBy(u, c, s'.loops[e'.loop].Queue()) + InFlight(s', u, c)
    {
      assert CallsBy(u, e.calls)
        == SentBy(u, e.conn.ledger.log) + WaitingBy(u, c, s.loops[e.loop].Queue()) + InFlight(s, u, c);
      CallsPush(u, e.calls, Posted(t, data));
      if u == t {
        assert InFlight(s, u, c) == [] && InFlight(s', u, c) == [data];
      } else {
        assert InFlight(s', u, c) == InFlight(s, u, c);
      }
    }
  }

  lemma CheckEntry(s: Server, t: Tid, c: ConnId, data: seq<Byte>)
    requires Enabled(s, CheckState(t, c, data)) && s.conns[c].loop in s.loops && EntryOk(s, c)
    ensures EntryOk(Apply(s, CheckState(t, c, data)), c)
  {
    var s' := Apply(s, CheckState(t, c, data));
    CheckOrder(s, t, c, data);
    forall l | l in s'.loops ensures Life(c, s'.loops[l].Queue()) == Expected(s'.main, s'.conns[c], c, l) {
      assert Life(c, s.loops[l].Queue()) == Expected(s.main, s.conns[c], c, l);
    }
  }

  lemma CheckAside(s: Server, t: Tid, c: ConnId, data: seq<Byte>, d: ConnId)
    requires Enabled(s, CheckState(t, c, data)) && d in s.conns && d != c && s.conns[d].loop in s.loops
    ensures SameFor(s, Apply(s, CheckState(t, c, data)), d)
  {
    var s' := Apply(s, CheckState(t, c, data));
    forall u ensures InFlight(s', u, d) == InFlight(s, u, d) {}
  }

  lemma CheckEntries(s: Server, t: Tid, c: ConnId, data: seq<Byte>)
    requires Typed(s) && EntriesOk(s) && Enabled(s, CheckState(t, c, data))
    requires Typed(Apply(s, CheckState(t, c, data)))
    ensures EntriesOk(Apply(s, CheckState(t, c, data)))
  {
    var s' := Apply(s, CheckState(t, c, data));
    assert EntryOk(s, c);
    CheckEntry(s, t, c, data);
    forall d | d in s'.conns && d != c ensures d in s.conns && SameFor(s, s', d) {
      CheckAside(s, t, c, data, d);
    }
    AllBut(s, s', c);
  }

  lemma CheckTypedHomed(s: Server, t: Tid, c: ConnId, data: seq<Byte>)
    requires Typed(s) && Homed(s) && Enabled(s, CheckState(t, c, data))
    ensures Typed(Apply(s, CheckState(t, c, data))) && Homed(Apply(s, CheckState(t, c, data)))
  {
  }

  lemma CheckActives(s: Server, t: Tid, c: ConnId, data: seq<Byte>)
    requires ActivesOk(s) && Enabled(s, CheckState(t, c, data))
    ensures ActivesOk(Apply(s, CheckState(t, c, data)))
  {
    ActivesKept(s, Apply(s, CheckState(t, c, data)));
  }

  lemma CheckKeeps(s: Server, t: Tid, c: ConnId, data: seq<Byte>)
    requires Inv(s) && Enabled(s, CheckState(t, c, data))
    ensures Inv(Apply(s, CheckState(t, c, data)))
  {
    CheckTypedHomed(s, t, c, data);
    CheckEntries(s, t, c, data);
    CheckActives(s, t, c, data);
  }

  lemma PostOrderFor(s: Server, t: Tid, u: Tid)
    requires Enabled(s, PostMessage(t)) && s.flights[t].0 in s.conns
    requires s.conns[s.flights[t].0].loop in s.loops
    ensures var c := s.flights[t].0; var l := s.conns[c].loop;
      WaitingBy(u, c, Apply(s, PostMessage(t)).loops[l].Queue()) + InFlight(Apply(s, PostMessage(t)), u, c)
      == WaitingBy(u, c, s.loops[l].Queue()) + InFlight(s, u, c)
  {
    var s' := Apply(s, PostMessage(t));
    var (c, data) := s.flights[t];
    var q := s.loops[s.conns[c].loop].Queue();
    assert s'.loops[s.conns[c].loop].Queue() == q + [Deliver(c, t, data)];
    WaitingPush(u, c, q, Deliver(c, t, data));
    assert InFlight(s', u, c) == if u == t then [] else InFlight(s, u, c);
  }

  lemma PostOrder(s: Server, t: Tid)
    requires Enabled(s, PostMessage(t)) && s.flights[t].0 in s.conns
    requires var c := s.flights[t].0; s.conns[c].loop in s.loops && InOrder(s, c)
    ensures InOrder(Apply(s, PostMessage(t)), s.flights[t].0)
  {
    var s' := Apply(s, PostMessage(t));
    var c := s.flights[t].0;
    var e := s.conns[c];
    forall u ensures CallsBy(u, e.calls)
      == SentBy(u, e.conn.ledger.log) + WaitingBy(u, c, s'.loops[e.loop].Queue()) + InFlight(s', u, c)
    {
      PostOrderFor(s, t, u);
      Regroup(SentBy(u, e.conn.ledger.log),
              WaitingBy(u, c, s.loops[e.loop].Queue()), InFlight(s, u, c),
              WaitingBy(u, c, s'.loops[e.loop].Queue()), InFlight(s', u, c));
    }
  }

  lemma Regroup(a: seq<seq<Byte>>, b: seq<seq<Byte>>, c: seq<seq<Byte>>, b': seq<seq<Byte>>, c': seq<seq<Byte>>)
    requires b' + c' == b + c
    ensures a + b + c == a + b' + c'
  {
    assert a + b + c == a + (b + c) && a + b' + c' == a + (b' + c');
  }

  lemma PostPlace(s: Server, t: Tid)
    requires Enabled(s, PostMessage(t)) && s.flights[t].0 in s.conns
    requires var c := s.flights[t].0; s.conns[c].loop in s.loops && PlaceOk(s, c)
    ensures PlaceOk(Apply(s, PostMessage(t)), s.flights[t].0)
  {
    var s' := Apply(s, PostMessage(t));
    var (c, data) := s.flights[t];
    PushOnto(s.(flights := s.flights - {t}), s.conns[c].loop, Deliver(c, t, data), c);
    forall l | l in s'.loops ensures Life(c, s'.loops[l].Queue()) == Expected(s'.main, s'.conns[c], c, l) {
      assert Life(c, s.loops[l].Queue()) == Expected(s.main, s.conns[c], c, l);
    }
  }

  lemma PostAside(s: Server, t: Tid, d: ConnId)
    requires Enabled(s, PostMessage(t)) && s.flights[t].0 in s.conns
    requires d in s.conns && d != s.flights[t].0 && s.conns[d].loop in s.loops
    requires s.conns[s.flights[t].0].loop in s.loops
    ensures SameFor(s, Apply(s, PostMessage(t)), d)
  {
    var (c, data) := s.flights[t];
    var s1 := s.(flights := s.flights - {t});
    assert SameFor(s, s1, d) by {
      forall u ensures InFlight(s1, u, d) == InFlight(s, u, d) {}
    }
    PushAside(s1, s.conns[c].loop, Deliver(c, t, data), d);
    SameTrans(s, s1, Push(s1, s.conns[c].loop, Deliver(c, t, data)), d);
  }

  lemma PushHomed(s: Server, l: LoopId, f: Functor)
    requires Homed(s) && l in s.loops && f.c in s.conns && (f.Deliver? ==> s.conns[f.c].loop == l)
    ensures Homed(Push(s, l, f))
  {
    assert Push(s, l, f).loops[l].Queue() == s.loops[l].Queue() + [f];
  }

  lemma PostEntries(s: Server, t: Tid)
    requires Typed(s) && EntriesOk(s) && Enabled(s, PostMessage(t)) && Typed(Apply(s, PostMessage(t)))
    ensures EntriesOk(Apply(s, PostMessage(t)))
  {
    var s' := Apply(s, PostMessage(t));
    var c := s.flights[t].0;
    assert EntryOk(s, c);
    PostOrder(s, t);
    PostPlace(s, t);
    forall d | d in s'.conns && d != c ensures d in s.conns && SameFor(s, s', d) {
      PostAside(s, t, d);
    }
    AllBut(s, s', c);
  }

  lemma PostTypedHomed(s: Server, t: Tid)
    requires Typed(s) && Homed(s) && Enabled(s, PostMessage(t))
    ensures Typed(Apply(s, PostMessage(t))) && Homed(Apply(s, PostMessage(t)))
  {
    var (c, data) := s.flights[t];
    PushHomed(s.(flights := s.flights - {t}), s.conns[c].loop, Deliver(c, t, data));
  }

  lemma PostActives(s: Server, t: Tid)
    requires ActivesOk(s) && Enabled(s, PostMessage(t))
    ensures ActivesOk(Apply(s, PostMessage(t)))
  {
    ActivesKept(s, Apply(s, PostMessage(t)));
  }

  lemma PostKeeps(s: Server, t: Tid)
    requires Inv(s) && Enabled(s, PostMessage(t))
    ensures Inv(Apply(s, PostMessage(t)))
  {
    PostTypedHomed(s, t);
    PostEntries(s, t);
    PostActives(s, t);
  }
}
