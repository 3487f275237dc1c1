/** What a run of the server means for one of its connections: exactly a run of that
    connection alone, with the events, messages and user code that the server's steps
    bring to it, in their order. */
module ServerProjection {
  import opened Basics
  import opened ConnectionModel
  import opened ConnectionTheorems
  import opened ConnectionEffects
  import opened Functors
  import opened ServerModel
  import opened ServerTheorems
  import opened ServerSteps
  import opened ServerFunctors
  import opened ServerDispatch
  import opened ServerRuns
  import opened ServerBatches
  import opened ServerConnections
  import CR = ConnectionRuns
  import Laws = ConnectionLaws

  // ------------------------------------------------------------- reading off a run

  /** What a step brings to connection `c` once it is established. */
  function StepOf(s: Server, a: Step, c: ConnId): seq<CR.Step>
    requires Enabled(s, a)
  {
    if c !in s.conns || s.conns[c].established == 0 then []
    else
      match a
      case Dispatch(l, io) =>
        var item := s.loops[l].pc.active[0];
        if item.c == c then [CR.Dispatch(item.revents, io)] else []
      case RunFunctor(l, _, w) =>
        var f := s.loops[l].batch[0];
        if f.Deliver? && f.c == c then [CR.RunFunctor(f.sender, f.data, w)] else []
      case UserCode(_, d, script) => if d == c then [CR.UserCode(script)] else []
      case _ => []
  }

  function StepsOf(s: Server, steps: seq<Step>, c: ConnId): seq<CR.Step>
    requires LegalRun(s, steps)
    decreases |steps|
  {
    if steps == [] then []
    else StepOf(s, steps[0], c) + StepsOf(Apply(s, steps[0]), steps[1..], c)
  }

  /** The options with which a step accepts `c`. */
  function AcceptedWith(s: Server, a: Step, c: ConnId): Option<Options>
    requires Enabled(s, a)
  {
    if a.DispatchAccept? && c == s.nextId then Some(a.options) else None
  }

  function OptionsOf(s: Server, steps: seq<Step>, c: ConnId): Option<Options>
    requires LegalRun(s, steps)
    decreases |steps|
  {
    if steps == [] then None
    else if AcceptedWith(s, steps[0], c).Some? then AcceptedWith(s, steps[0], c)
    else OptionsOf(Apply(s, steps[0]), steps[1..], c)
  }

  /** The body of the connection callback with which a step establishes `c`. */
  function EstablishedBy(s: Server, a: Step, c: ConnId): Option<seq<Action>>
    requires Enabled(s, a)
  {
    match a
    case DispatchAccept(_, target, _, script) => if c == s.nextId && target == s.main then Some(script) else None
    case RunFunctor(l, script, _) => if s.loops[l].batch[0] == Establish(c) then Some(script) else None
    case _ => None
  }

  function UpScript(s: Server, steps: seq<Step>, c: ConnId): Option<seq<Action>>
    requires LegalRun(s, steps)
    decreases |steps|
  {
    if steps == [] then None
    else if EstablishedBy(s, steps[0], c).Some? then EstablishedBy(s, steps[0], c)
    else UpScript(Apply(s, steps[0]), steps[1..], c)
  }

  // ---------------------------------------------------------- once it is established

  /** The server's connection is the one run alone, but for the channel's record once
      it has been destroyed. */
  predicate Matches(e: Entry, r: Conn) {
    && e.established > 0 && e.conn == r.(reg := e.conn.reg)
    && (e.phase != Destroyed ==> e.conn == r)
  }

  /** `t` is what a step brings, at most one thing. */
  predicate Follows(e: Entry, r: Conn, t: seq<CR.Step>) {
    if t == [] then Matches(e, r) else |t| == 1 && CR.Legal(r, t[0]) && Matches(e, CR.Apply(r, t[0]))
  }

  /** Handling one connection, or running a functor about it, leaves the others. */
  lemma HandledOthers(s: Server, l: LoopId, d: ConnId, conn: Conn, c: ConnId)
    requires c in s.conns && c != d
    ensures c in Handled(s, l, d, conn).conns && Handled(s, l, d, conn).conns[c] == s.conns[c]
  {
  }

  lemma RunOthers(s: Server, f: Functor, script: seq<Action>, w: WriteOutcome, c: ConnId)
    requires c in s.conns && c != f.c
    ensures c in RunOne(s, f, script, w).conns && RunOne(s, f, script, w).conns[c] == s.conns[c]
  {
  }

  lemma EventFollows(s: Server, a: Step, c: ConnId, r: Conn)
    requires Inv(s) && Enabled(s, a) && a.Dispatch? && c in s.conns && Matches(s.conns[c], r)
    ensures c in Apply(s, a).conns && Follows(Apply(s, a).conns[c], r, StepOf(s, a, c))
  {
    var item := s.loops[a.l].pc.active[0];
    var conn := HandleEvent(s.conns[item.c].conn, item.revents, a.io);
    assert ActiveOk(s, a.l);
    assert ItemOk(s, a.l, item);
    if item.c == c {
      assert EntryOk(s, c);
      HandledEntry(Taken(s, a.l), a.l, c, conn);
    } else {
      HandledOthers(Taken(s, a.l), a.l, item.c, conn, c);
    }
  }

  lemma HandledEntry(s: Server, l: LoopId, c: ConnId, conn: Conn)
    requires c in s.conns && s.conns[c].phase == Alive
    ensures var s' := Handled(s, l, c, conn);
      && c in s'.conns && s'.conns[c].conn == conn && s'.conns[c].phase != Destroyed
      && s'.conns[c].established == s.conns[c].established
  {
  }

  lemma DeliverFollows(e: Entry, r: Conn, who: Tid, data: seq<Byte>, w: WriteOutcome)
    requires ConnOk(e) && Matches(e, r)
    ensures Matches(e.(conn := SendInLoop(e.conn, Foreign(who), data, w)), SendInLoop(r, Foreign(who), data, w))
  {
  }

  lemma ScriptFollows(e: Entry, r: Conn, script: seq<Action>)
    requires ConnOk(e) && Matches(e, r)
    ensures Matches(e.(conn := RunScript(e.conn, script)), RunScript(r, script))
  {
    if e.phase == Destroyed {
      ClosedScriptEffect(e.conn, script);
      ClosedScriptEffect(r, script);
    }
  }

  lemma FunctorFollows(s: Server, a: Step, c: ConnId, r: Conn)
    requires Inv(s) && Enabled(s, a) && a.RunFunctor? && c in s.conns && Matches(s.conns[c], r)
    ensures c in Apply(s, a).conns && Follows(Apply(s, a).conns[c], r, StepOf(s, a, c))
  {
    var f := s.loops[a.l].batch[0];
    HeadKnown(s, a.l, f);
    if f.c != c {
      RunOthers(Popped(s, a.l), f, a.script, a.w, c);
    } else {
      HeadFollows(s, a, f, r);
    }
  }

  lemma HeadFollows(s: Server, a: Step, f: Functor, r: Conn)
    requires Inv(s) && Enabled(s, a) && a.RunFunctor? && Heads(s, a.l, f)
    requires f.c in s.conns && Matches(s.conns[f.c], r)
    ensures f.c in Apply(s, a).conns && Follows(Apply(s, a).conns[f.c], r, StepOf(s, a, f.c))
  {
    var e := s.conns[f.c];
    assert EntryOk(s, f.c);
    if !f.Deliver? { HeadMeans(s, a.l, f); }
    match f
    case Establish(_) => assert false;
    case RemoveInLoop(_) =>
    case Destroy(_) => DestroyAfterClose(e.conn, a.script);
    case Deliver(_, sender, data) => DeliverFollows(e, r, sender, data, a.w);
  }

  lemma UserCodeFollows(s: Server, a: Step, c: ConnId, r: Conn)
    requires Enabled(s, a) && a.UserCode? && c in s.conns && ConnOk(s.conns[c]) && Matches(s.conns[c], r)
    ensures c in Apply(s, a).conns && Follows(Apply(s, a).conns[c], r, StepOf(s, a, c))
  {
    if a.c == c { ScriptFollows(s.conns[c], r, a.script); }
  }

  lemma AcceptFollows(s: Server, a: Step, c: ConnId, r: Conn)
    requires Typed(s) && Enabled(s, a) && a.DispatchAccept? && c in s.conns && Matches(s.conns[c], r)
    ensures c in Apply(s, a).conns && Follows(Apply(s, a).conns[c], r, StepOf(s, a, c))
  {
    AcceptSpares(s, a, c);
  }

  lemma OtherFollows(s: Server, a: Step, c: ConnId, r: Conn)
    requires Typed(s) && Enabled(s, a) && c in s.conns && Matches(s.conns[c], r)
    requires !a.Dispatch? && !a.DispatchAccept? && !a.RunFunctor? && !a.UserCode?
    ensures c in Apply(s, a).conns && Follows(Apply(s, a).conns[c], r, StepOf(s, a, c))
  {
  }

  lemma StepFollows(s: Server, a: Step, c: ConnId, r: Conn)
    requires Inv(s) && Enabled(s, a) && c in s.conns && Matches(s.conns[c], r)
    ensures c in Apply(s, a).conns && Follows(Apply(s, a).conns[c], r, StepOf(s, a, c))
  {
    match a
    case Dispatch(_, _) => EventFollows(s, a, c, r);
    case DispatchAccept(_, _, _, _) => AcceptFollows(s, a, c, r);
    case RunFunctor(_, _, _) => FunctorFollows(s, a, c, r);
    case UserCode(_, _, _) =>
      assert ConnOk(s.conns[c]) by { assert EntryOk(s, c); }
      UserCodeFollows(s, a, c, r);
    case _ => OtherFollows(s, a, c, r);
  }

  /** From any moment at which the connection is established. */
  lemma {:induction false} RunFollows(s: Server, steps: seq<Step>, c: ConnId, r: Conn)
    requires Inv(s) && LegalRun(s, steps) && c in s.conns && Matches(s.conns[c], r)
    ensures var cs := StepsOf(s, steps, c);
      c in Run(s, steps).conns && CR.LegalRun(r, cs) && Matches(Run(s, steps).conns[c], CR.Run(r, cs))
    decreases |steps|
  {
    if steps != [] {
      var a, s1 := steps[0], Apply(s, steps[0]);
      var t := StepOf(s, a, c);
      StepKeeps(s, a);
      StepFollows(s, a, c, r);
      if t == [] {
        assert StepsOf(s, steps, c) == StepsOf(s1, steps[1..], c);
        RunFollows(s1, steps[1..], c, r);
      } else {
        RunFollows(s1, steps[1..], c, CR.Apply(r, t[0]));
        var cs := StepsOf(s1, steps[1..], c);
        assert (t + cs)[0] == t[0] && (t + cs)[1..] == cs;
      }
    }
  }

  // ---------------------------------------------------------------- before that

  /** The connection has been accepted with `options` and is not yet established. */
  predicate Waits(s: Server, c: ConnId, options: Options) {
    c in s.conns && s.conns[c].established == 0 && s.conns[c].conn == Fresh(options)
  }

  /** It has just been established, and its callback's body has run. */
  predicate Rises(s: Server, c: ConnId, options: Options, up: seq<Action>) {
    c in s.conns && Matches(s.conns[c], ConnectEstablished(Fresh(options), up))
  }

  lemma AcceptRaises(s: Server, a: Step, c: ConnId)
    requires Typed(s) && Enabled(s, a) && a.DispatchAccept? && c == s.nextId
    ensures if a.target == s.main then Rises(Apply(s, a), c, a.options, a.script) else Waits(Apply(s, a), c, a.options)
  {
  }

  lemma WaitingStep(s: Server, a: Step, c: ConnId, options: Options)
    requires Inv(s) && Enabled(s, a) && Waits(s, c, options)
    ensures AcceptedWith(s, a, c).None?
    ensures var up := EstablishedBy(s, a, c);
      if up.Some? then Rises(Apply(s, a), c, options, up.value) else Waits(Apply(s, a), c, options)
  {
    assert c < s.nextId;
    assert s.conns[c].phase == Establishing by { assert EntryOk(s, c); }
    match a
    case Dispatch(_, _) => WaitingEvent(s, a, c);
    case DispatchAccept(_, _, _, _) => AcceptSpares(s, a, c);
    case RunFunctor(_, _, _) => WaitingFunctor(s, a, c, options);
    case _ => OtherWaits(s, a, c, options);
  }

  lemma OtherWaits(s: Server, a: Step, c: ConnId, options: Options)
    requires Typed(s) && Enabled(s, a) && Waits(s, c, options)
    requires !a.Dispatch? && !a.DispatchAccept? && !a.RunFunctor?
    ensures Waits(Apply(s, a), c, options)
  {
  }

  lemma WaitingEvent(s: Server, a: Step, c: ConnId)
    requires Inv(s) && Enabled(s, a) && a.Dispatch? && c in s.conns && s.conns[c].phase == Establishing
    ensures c in Apply(s, a).conns && Apply(s, a).conns[c] == s.conns[c]
  {
    var item := s.loops[a.l].pc.active[0];
    assert ActiveOk(s, a.l);
    assert ItemOk(s, a.l, item);
    HandledOthers(Taken(s, a.l), a.l, item.c, HandleEvent(s.conns[item.c].conn, item.revents, a.io), c);
  }

  lemma WaitingFunctor(s: Server, a: Step, c: ConnId, options: Options)
    requires Inv(s) && Enabled(s, a) && a.RunFunctor? && Waits(s, c, options)
    ensures var up := EstablishedBy(s, a, c);
      if up.Some? then Rises(Apply(s, a), c, options, up.value) else Waits(Apply(s, a), c, options)
  {
    var f := s.loops[a.l].batch[0];
    if f.c == c { WaitingHead(s, a.l, f); }
    WaitingRun(Popped(s, a.l), f, c, options, a.script, a.w);
  }

  lemma WaitingRun(s: Server, f: Functor, c: ConnId, options: Options, script: seq<Action>, w: WriteOutcome)
    requires Waits(s, c, options) && (f.c == c ==> f == Establish(c))
    ensures var s' := RunOne(s, f, script, w);
      if f == Establish(c) then Rises(s', c, options, script) else Waits(s', c, options)
  {
    if f.c != c { RunOthers(s, f, script, w, c); }
  }

  /** The only functor about a waiting connection is the one that establishes it. */
  lemma WaitingHead(s: Server, l: LoopId, f: Functor)
    requires Inv(s) && Heads(s, l, f) && f.c in s.conns && s.conns[f.c].established == 0
    ensures f == Establish(f.c)
  {
    HeadKnown(s, l, f);
    assert EntryOk(s, f.c);
    if f.Deliver? { DeliverMeansCalls(s, l, f); } else { HeadMeans(s, l, f); }
  }

  /** Nothing is brought to a connection before it is established. */
  lemma NothingYet(s: Server, steps: seq<Step>, c: ConnId)
    requires LegalRun(s, steps) && steps != []
    requires c in s.conns ==> s.conns[c].established == 0
    ensures StepsOf(s, steps, c) == StepsOf(Apply(s, steps[0]), steps[1..], c)
  {
    assert StepOf(s, steps[0], c) == [];
  }

  // ------------------------------------------------------------------ main statements

  /** What the run's steps make of a connection accepted with `options`. */
  ghost predicate IsProjection(e: Entry, options: Options, up: Option<seq<Action>>, cs: seq<CR.Step>) {
    match up
    case None => e.established == 0 && e.conn == Fresh(options) && cs == []
    case Some(script) =>
      var r := ConnectEstablished(Fresh(options), script);
      CR.LegalRun(r, cs) && Matches(e, CR.Run(r, cs))
  }

  lemma {:induction false} WaitingProjects(s: Server, steps: seq<Step>, c: ConnId, options: Options)
    requires Inv(s) && LegalRun(s, steps) && Waits(s, c, options)
    ensures c in Run(s, steps).conns
    ensures IsProjection(Run(s, steps).conns[c], options, UpScript(s, steps, c), StepsOf(s, steps, c))
    decreases |steps|
  {
    if steps != [] {
      var a, s1 := steps[0], Apply(s, steps[0]);
      StepKeeps(s, a);
      WaitingStep(s, a, c, options);
      NothingYet(s, steps, c);
      if EstablishedBy(s, a, c).Some? {
        RunFollows(s1, steps[1..], c, ConnectEstablished(Fresh(options), EstablishedBy(s, a, c).value));
      } else {
        WaitingProjects(s1, steps[1..], c, options);
      }
    }
  }

  /** From the moment of its acceptance, established at once or not. */
  lemma AcceptedProjects(s: Server, steps: seq<Step>, c: ConnId, options: Options, up: Option<seq<Action>>)
    requires Inv(s) && LegalRun(s, steps)
    requires if up.Some? then Rises(s, c, options, up.value) else Waits(s, c, options)
    ensures c in Run(s, steps).conns
    ensures IsProjection(Run(s, steps).conns[c], options,
                         if up.Some? then up else UpScript(s, steps, c), StepsOf(s, steps, c))
  {
    if up.Some? {
      RunFollows(s, steps, c, ConnectEstablished(Fresh(options), up.value));
    } else {
      WaitingProjects(s, steps, c, options);
    }
  }

  /** The same, from the step that accepts it. */
  lemma AcceptProjects(s: Server, steps: seq<Step>, c: ConnId)
    requires Inv(s) && LegalRun(s, steps) && steps != [] && steps[0].DispatchAccept? && c == s.nextId && c !in s.conns
    ensures c in Run(s, steps).conns
    ensures IsProjection(Run(s, steps).conns[c], steps[0].options, UpScript(s, steps, c), StepsOf(s, steps, c))
  {
    var a := steps[0];
    StepKeeps(s, a);
    AcceptRaises(s, a, c);
    NothingYet(s, steps, c);
    AcceptedProjects(Apply(s, a), steps[1..], c, a.options, if a.target == s.main then Some(a.script) else None);
  }

  lemma {:induction false} UnknownProjects(s: Server, steps: seq<Step>, c: ConnId)
    requires Inv(s) && LegalRun(s, steps) && c !in s.conns && c in Run(s, steps).conns
    ensures OptionsOf(s, steps, c).Some?
    ensures IsProjection(Run(s, steps).conns[c], OptionsOf(s, steps, c).value, UpScript(s, steps, c), StepsOf(s, steps, c))
    decreases |steps|
  {
    if steps != [] {
      if steps[0].DispatchAccept? && c == s.nextId {
        AcceptProjects(s, steps, c);
      } else {
        StepKeeps(s, steps[0]);
        StillUnknown(s, steps[0], c);
        NothingYet(s, steps, c);
        UnknownProjects(Apply(s, steps[0]), steps[1..], c);
      }
    }
  }

  lemma StillUnknown(s: Server, a: Step, c: ConnId)
    requires Inv(s) && Enabled(s, a) && c !in s.conns && !(a.DispatchAccept? && c == s.nextId)
    ensures c !in Apply(s, a).conns && EstablishedBy(s, a, c).None? && AcceptedWith(s, a, c).None?
  {
    if a.RunFunctor? { HeadKnown(s, a.l, s.loops[a.l].batch[0]); }
    NotRaised(s, a, c);
  }

  lemma NotRaised(s: Server, a: Step, c: ConnId)
    requires Enabled(s, a) && c !in s.conns && !(a.DispatchAccept? && c == s.nextId)
    requires a.RunFunctor? ==> s.loops[a.l].batch[0].c != c
    ensures c !in Apply(s, a).conns && EstablishedBy(s, a, c).None? && AcceptedWith(s, a, c).None?
  {
    KnownAfter(s, a);
  }

  lemma KnownAfter(s: Server, a: Step)
    requires Enabled(s, a)
    ensures Apply(s, a).conns.Keys == s.conns.Keys + (if a.DispatchAccept? then {s.nextId} else {})
  {
    if a.DispatchAccept? { AcceptBringsOne(s, a); } else { NothingNew(s, a); }
  }

  lemma AcceptBringsOne(s: Server, a: Step)
    requires Enabled(s, a) && a.DispatchAccept?
    ensures Apply(s, a).conns.Keys == s.conns.Keys + {s.nextId}
  {
  }

  /** Every connection of every server run is a run of that connection: accepted with
      the options of the step that accepted it, brought up with the callback of the
      step that established it, and then served exactly the events, messages and user
      code that the steps bring, in their order. */
  lemma ConnectionIsRun(start: Server, steps: seq<Step>, c: ConnId)
    requires IsStart(start) && LegalRun(start, steps) && c in Run(start, steps).conns
    ensures OptionsOf(start, steps, c).Some?
    ensures IsProjection(Run(start, steps).conns[c], OptionsOf(start, steps, c).value,
                         UpScript(start, steps, c), StepsOf(start, steps, c))
  {
    StartInv(start);
    UnknownProjects(start, steps, c);
  }

  /** For every connection of every server run: what its events have read is what user
      code has taken out followed by what waits in its input buffer. */
  lemma InputConserved(start: Server, steps: seq<Step>, c: ConnId)
    requires IsStart(start) && LegalRun(start, steps) && c in Run(start, steps).conns
    ensures var conn := Run(start, steps).conns[c].conn;
      Laws.AllBroughtIn(StepsOf(start, steps, c)) == conn.ledger.taken + conn.input
  {
    ConnectionIsRun(start, steps, c);
    var up := UpScript(start, steps, c);
    if up.Some? {
      Laws.InputConserved(OptionsOf(start, steps, c).value, up.value, StepsOf(start, steps, c));
    }
  }

  /** No step of the server makes a shut or closed connection connected again. */
  lemma ShutdownIsFinal(s: Server, steps: seq<Step>, c: ConnId)
    requires Reachable(s) && LegalRun(s, steps) && c in s.conns
    requires s.conns[c].established > 0 && s.conns[c].conn.state != Connected
    ensures c in Run(s, steps).conns && Run(s, steps).conns[c].conn.state != Connected
  {
    ReachableInv(s);
    assert EntryOk(s, c);
    var e := s.conns[c];
    if e.phase == Destroyed {
      StaysDestroyed(s, steps, c);
    } else {
      RunFollows(s, steps, c, e.conn);
      Laws.RunStaysShut(e.conn, StepsOf(s, steps, c));
    }
  }

  lemma StaysDestroyed(s: Server, steps: seq<Step>, c: ConnId)
    requires Inv(s) && LegalRun(s, steps) && c in s.conns && s.conns[c].phase == Destroyed
    ensures c in Run(s, steps).conns && Run(s, steps).conns[c].conn.state == Disconnected
  {
    RunRanks(s, steps);
    assert EntryOk(Run(s, steps), c);
  }

  // ------------------------------------------------------------------- foreign sends

  /** The calls of `Send` on `c` that other threads make in a run. */
  function Checks(c: ConnId, steps: seq<Step>): seq<Posted> {
    if steps == [] then []
    else CallOf(c, steps[0]) + Checks(c, steps[1..])
  }

  function CallsSoFar(s: Server, c: ConnId): seq<Posted> {
    if c in s.conns then s.conns[c].calls else []
  }

  function CallOf(c: ConnId, a: Step): seq<Posted> {
    if a.CheckState? && a.c == c then [Posted(a.t, a.data)] else []
  }

  lemma StepCalls(s: Server, a: Step, c: ConnId)
    requires Typed(s) && Enabled(s, a)
    ensures CallsSoFar(Apply(s, a), c) == CallsSoFar(s, c) + CallOf(c, a)
  {
    match a
    case Dispatch(l, io) => EventCalls(s, a, c);
    case RunFunctor(l, script, w) => RunCalls(Popped(s, l), s.loops[l].batch[0], script, w, c);
    case DispatchAccept(_, _, _, _) => AcceptCalls(s, a, c);
    case _ => OtherCalls(s, a, c);
  }

  lemma AcceptCalls(s: Server, a: Step, c: ConnId)
    requires Typed(s) && Enabled(s, a) && a.DispatchAccept?
    ensures CallsSoFar(Apply(s, a), c) == CallsSoFar(s, c)
  {
  }

  lemma EventCalls(s: Server, a: Step, c: ConnId)
    requires Enabled(s, a) && a.Dispatch?
    ensures CallsSoFar(Apply(s, a), c) == CallsSoFar(s, c)
  {
    var item := s.loops[a.l].pc.active[0];
    if item.c in s.conns {
      HandledCalls(Taken(s, a.l), a.l, item.c, HandleEvent(s.conns[item.c].conn, item.revents, a.io), c);
    }
  }

  lemma OtherCalls(s: Server, a: Step, c: ConnId)
    requires Enabled(s, a) && !a.Dispatch? && !a.DispatchAccept? && !a.RunFunctor?
    ensures CallsSoFar(Apply(s, a), c) == CallsSoFar(s, c) + CallOf(c, a)
  {
  }

  lemma HandledCalls(s: Server, l: LoopId, d: ConnId, conn: Conn, c: ConnId)
    ensures CallsSoFar(Handled(s, l, d, conn), c) == CallsSoFar(s, c)
  {
  }

  lemma RunCalls(s: Server, f: Functor, script: seq<Action>, w: WriteOutcome, c: ConnId)
    ensures CallsSoFar(RunOne(s, f, script, w), c) == CallsSoFar(s, c)
  {
  }

  lemma Associates(a: seq<Posted>, b: seq<Posted>, c: seq<Posted>)
    ensures (a + b) + c == a + (b + c)
  {
  }

  lemma {:induction false} RunKeepsCalls(s: Server, steps: seq<Step>, c: ConnId)
    requires Inv(s) && LegalRun(s, steps)
    ensures CallsSoFar(Run(s, steps), c) == CallsSoFar(s, c) + Checks(c, steps)
    decreases |steps|
  {
    if steps == [] {
      assert CallsSoFar(s, c) + [] == CallsSoFar(s, c);
    } else {
      var rest := steps[1..];
      StepKeeps(s, steps[0]);
      StepCalls(s, steps[0], c);
      RunKeepsCalls(Apply(s, steps[0]), rest, c);
      Associates(CallsSoFar(s, c), CallOf(c, steps[0]), Checks(c, rest));
    }
  }

  lemma CallsOfRun(start: Server, steps: seq<Step>, c: ConnId)
    requires IsStart(start) && LegalRun(start, steps) && c in Run(start, steps).conns
    ensures Run(start, steps).conns[c].calls == Checks(c, steps)
    ensures Run(start, steps).conns[c].loop in Run(start, steps).loops
  {
    StartInv(start);
    RunKeepsCalls(start, steps, c);
    assert [] + Checks(c, steps) == Checks(c, steps);
    RunInv(start, steps);
  }

  /** The messages that thread `t` hands to `Send` on `c` in a run are, in call order,
      those executed, then those queued, then the one in flight: none is forgotten. */
  lemma SendsAreKept(start: Server, steps: seq<Step>, c: ConnId, t: Tid)
    requires IsStart(start) && LegalRun(start, steps) && c in Run(start, steps).conns
    ensures var s := Run(start, steps); var e := s.conns[c];
      && e.loop in s.loops
      && CallsBy(t, Checks(c, steps))
         == SentBy(t, e.conn.ledger.log) + WaitingBy(t, c, s.loops[e.loop].Queue()) + InFlight(s, t, c)
  {
    CallsOfRun(start, steps, c);
    SenderOrder(Run(start, steps), c, t);
  }
}
