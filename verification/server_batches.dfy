/** While a loop works through its active channels, none of its channels leaves the
    poller's map: destruction runs in the functor phase only, which comes after. */
module ServerBatches {
  import opened Basics
  import opened ConnectionModel
  import opened ConnectionTheorems
  import opened Functors
  import opened ServerModel
  import opened ServerTheorems
  import opened ServerSteps
  import opened ServerFunctors
  import opened ServerDispatch
  import opened ServerRuns
  import opened ServerWakeups

  /** Connection `c` lives on loop `l`, and its channel is in that loop's poller. */
  predicate Mapped(s: Server, l: LoopId, c: ConnId) {
    c in s.conns && s.conns[c].loop == l && s.conns[c].conn.reg.mapped
  }

  predicate InDispatch(s: Server, l: LoopId) {
    l in s.loops && s.loops[l].pc.Dispatching?
  }

  lemma MappedByPhase(s: Server, c: ConnId)
    requires Inv(s) && c in s.conns
    ensures s.conns[c].conn.reg.mapped <==> 1 <= Rank(s.conns[c].phase) <= 3
  {
    assert EntryOk(s, c);
  }

  /** Only its own functor phase takes a loop out of its dispatch. */
  lemma DispatchGoesOn(s: Server, l: LoopId, a: Step)
    requires Typed(s) && Enabled(s, a) && InDispatch(s, l) && a != BeginFunctors(l)
    ensures InDispatch(Apply(s, a), l)
  {
    LoopsMove(s, a, l);
  }

  /** A destruction runs on the connection's own loop, in its functor phase. */
  lemma DestroysAtHome(s: Server, l: LoopId, c: ConnId)
    requires Inv(s) && c in s.conns && Heads(s, l, Destroy(c))
    ensures s.conns[c].phase == Dying && s.conns[c].loop == l
  {
    assert EntryOk(s, c);
    HeadMeans(s, l, Destroy(c));
  }

  lemma FunctorSpares(s: Server, f: Functor, script: seq<Action>, w: WriteOutcome, c: ConnId)
    requires c in s.conns && s.conns[c].phase != Destroyed && f != Destroy(c)
    ensures var s' := RunOne(s, f, script, w); c in s'.conns && s'.conns[c].phase != Destroyed
  {
  }

  /** An event, and the removal that it may ask for, destroys nothing. */
  lemma EventSpares(s: Server, a: Step, c: ConnId)
    requires Typed(s) && Enabled(s, a) && a.Dispatch? && c in s.conns && s.conns[c].phase != Destroyed
    requires s.loops[a.l].pc.active[0].c in s.conns
    ensures c in Apply(s, a).conns && Apply(s, a).conns[c].phase != Destroyed
  {
    var item := s.loops[a.l].pc.active[0];
    if item.c != c {
      HandledAside(Taken(s, a.l), a.l, item.c, HandleEvent(s.conns[item.c].conn, item.revents, a.io), c);
    }
  }

  lemma FirstIsKnown(s: Server, a: Step)
    requires Inv(s) && Enabled(s, a) && a.Dispatch?
    ensures s.loops[a.l].pc.active[0].c in s.conns
  {
    assert ActiveOk(s, a.l);
    assert ItemOk(s, a.l, s.loops[a.l].pc.active[0]);
  }

  lemma AcceptSpares(s: Server, a: Step, c: ConnId)
    requires Typed(s) && Enabled(s, a) && a.DispatchAccept? && c in s.conns
    ensures c in Apply(s, a).conns && Apply(s, a).conns[c] == s.conns[c]
  {
    NewPhase(Taken(s, a.l), a.target, a.options, a.script);
  }

  lemma OtherSpares(s: Server, a: Step, c: ConnId)
    requires Typed(s) && Enabled(s, a) && !a.Dispatch? && !a.DispatchAccept? && !a.RunFunctor? && c in s.conns
    ensures c in Apply(s, a).conns && Apply(s, a).conns[c].phase == s.conns[c].phase
  {
  }

  lemma RunSpares(s: Server, l: LoopId, a: Step, c: ConnId)
    requires Inv(s) && Enabled(s, a) && a.RunFunctor? && InDispatch(s, l)
    requires c in s.conns && s.conns[c].loop == l && s.conns[c].phase != Destroyed
    ensures c in Apply(s, a).conns && Apply(s, a).conns[c].phase != Destroyed
  {
    var f := s.loops[a.l].batch[0];
    if f == Destroy(c) { DestroysAtHome(s, a.l, c); }
    FunctorSpares(Popped(s, a.l), f, a.script, a.w, c);
  }

  lemma StepSpares(s: Server, l: LoopId, a: Step, c: ConnId)
    requires Inv(s) && Enabled(s, a) && InDispatch(s, l)
    requires c in s.conns && s.conns[c].loop == l && s.conns[c].phase != Destroyed
    ensures c in Apply(s, a).conns && Apply(s, a).conns[c].phase != Destroyed
  {
    match a
    case Dispatch(_, _) =>
      FirstIsKnown(s, a);
      EventSpares(s, a, c);
    case RunFunctor(_, _, _) => RunSpares(s, l, a, c);
    case DispatchAccept(_, _, _, _) => AcceptSpares(s, a, c);
    case _ => OtherSpares(s, a, c);
  }

  lemma AdvancesAt(s: Server, a: Step, c: ConnId)
    requires Inv(s) && Enabled(s, a) && c in s.conns
    ensures var s' := Apply(s, a);
      c in s'.conns && s'.conns[c].loop == s.conns[c].loop && Rank(s.conns[c].phase) <= Rank(s'.conns[c].phase)
  {
    StepAdvances(s, a);
  }

  /** Established and not yet destroyed. */
  predicate Between(s: Server, l: LoopId, c: ConnId) {
    c in s.conns && s.conns[c].loop == l && 1 <= Rank(s.conns[c].phase) <= 3
  }

  lemma StaysBetween(s: Server, s': Server, l: LoopId, c: ConnId)
    requires Between(s, l, c) && c in s'.conns && s'.conns[c].loop == s.conns[c].loop
    requires Rank(s.conns[c].phase) <= Rank(s'.conns[c].phase) && s'.conns[c].phase != Destroyed
    ensures Between(s', l, c)
  {
  }

  lemma StepStaysBetween(s: Server, l: LoopId, a: Step, c: ConnId)
    requires Inv(s) && Enabled(s, a) && InDispatch(s, l) && Between(s, l, c)
    ensures Between(Apply(s, a), l, c)
  {
    AdvancesAt(s, a, c);
    StepSpares(s, l, a, c);
    StaysBetween(s, Apply(s, a), l, c);
  }

  lemma MappedStays(s: Server, l: LoopId, a: Step, c: ConnId)
    requires Inv(s) && Enabled(s, a) && InDispatch(s, l) && Mapped(s, l, c)
    ensures Inv(Apply(s, a)) && Mapped(Apply(s, a), l, c)
  {
    StepKeeps(s, a);
    MappedByPhase(s, c);
    StepStaysBetween(s, l, a, c);
    MappedByPhase(Apply(s, a), c);
  }

  lemma {:induction false} RunStaysMapped(s: Server, l: LoopId, steps: seq<Step>, c: ConnId)
    requires Inv(s) && LegalRun(s, steps) && InDispatch(s, l) && Mapped(s, l, c)
    requires BeginFunctors(l) !in steps
    ensures Mapped(Run(s, steps), l, c)
    decreases |steps|
  {
    if steps != [] {
      DispatchGoesOn(s, l, steps[0]);
      MappedStays(s, l, steps[0], c);
      RunStaysMapped(Apply(s, steps[0]), l, steps[1..], c);
    }
  }

  // ------------------------------------------------------------------ main statements

  /** From any moment of a dispatch to its end, whatever all loops and threads do: no
      channel of this loop leaves the map, be it active or not, handled or not. */
  lemma NothingRemovedInDispatch(s: Server, l: LoopId, steps: seq<Step>, c: ConnId)
    requires Reachable(s) && LegalRun(s, steps) && InDispatch(s, l) && Mapped(s, l, c)
    requires BeginFunctors(l) !in steps
    ensures Mapped(Run(s, steps), l, c)
  {
    ReachableInv(s);
    RunStaysMapped(s, l, steps, c);
  }

  /** In particular every channel that a poll reports is in the map until the whole
      batch has been dispatched: also the one whose handler has just closed it, and
      those handled before, and also when the main loop hosts them itself. */
  lemma BatchStaysMapped(s: Server, l: LoopId, active: seq<Item>, steps: seq<Step>, i: nat)
    requires Reachable(s) && Enabled(s, Poll(l, active)) && LegalRun(Apply(s, Poll(l, active)), steps)
    requires BeginFunctors(l) !in steps && i < |active| && active[i].Ready?
    ensures Mapped(Run(Apply(s, Poll(l, active)), steps), l, active[i].c)
  {
    ReachableInv(s);
    StepKeeps(s, Poll(l, active));
    assert EntryOk(s, active[i].c);
    RunStaysMapped(Apply(s, Poll(l, active)), l, steps, active[i].c);
  }

  /** The functor phase does take a channel out: each destruction that it runs. */
  lemma DestructionUnmaps(s: Server, l: LoopId, c: ConnId, script: seq<Action>, w: WriteOutcome)
    requires Reachable(s) && Enabled(s, RunFunctor(l, script, w)) && s.loops[l].batch[0] == Destroy(c)
    ensures Mapped(s, l, c) && !Mapped(Apply(s, RunFunctor(l, script, w)), l, c)
  {
    ReachableInv(s);
    HeadKnown(s, l, Destroy(c));
    DestroysAtHome(s, l, c);
    MappedByPhase(s, c);
    assert Gone(ConnectDestroyed(s.conns[c].conn, script)) by {
      assert EntryOk(s, c);
      DestroyAfterClose(s.conns[c].conn, script);
    }
  }

  // ------------------------------------------------------------------ the batch itself

  predicate Handles(l: LoopId, a: Step) { (a.Dispatch? || a.DispatchAccept?) && a.l == l }

  /** How many items the thread of loop `l` handles in a run. */
  function HandledBy(l: LoopId, steps: seq<Step>): nat {
    if steps == [] then 0
    else (if Handles(l, steps[0]) then 1 else 0) + HandledBy(l, steps[1..])
  }

  /** From `s` to `s'` loop `l` has handled the first `k` items, and no others. */
  predicate Took(s: Server, s': Server, l: LoopId, k: nat) {
    && InDispatch(s, l) && l in s'.loops && k <= |s.loops[l].pc.active|
    && s'.loops[l].pc == Dispatching(Rest(s.loops[l].pc.active, k))
  }

  lemma StepTakes(s: Server, l: LoopId, a: Step)
    requires Typed(s) && Enabled(s, a) && InDispatch(s, l) && a != BeginFunctors(l)
    ensures Took(s, Apply(s, a), l, if Handles(l, a) then 1 else 0)
  {
    LoopsMove(s, a, l);
  }

  lemma TookBoth(s: Server, s1: Server, s2: Server, l: LoopId, j: nat, k: nat)
    requires Took(s, s1, l, j) && Took(s1, s2, l, k)
    ensures Took(s, s2, l, j + k)
  {
    TakenTwice(s.loops[l].pc.active, j, k);
  }

  /** Until the functor phase a loop handles the items of its batch one by one in the
      order reported, none twice and none left out. */
  lemma {:induction false} TakesInOrder(s: Server, l: LoopId, steps: seq<Step>)
    requires Inv(s) && LegalRun(s, steps) && InDispatch(s, l) && BeginFunctors(l) !in steps
    ensures Took(s, Run(s, steps), l, HandledBy(l, steps))
    decreases |steps|
  {
    if steps != [] {
      StepTakesOn(s, l, steps[0]);
      TakesInOrder(Apply(s, steps[0]), l, steps[1..]);
      TookMore(s, Apply(s, steps[0]), Run(s, steps), l, steps);
    }
  }

  lemma StepTakesOn(s: Server, l: LoopId, a: Step)
    requires Inv(s) && Enabled(s, a) && InDispatch(s, l) && a != BeginFunctors(l)
    ensures Inv(Apply(s, a)) && InDispatch(Apply(s, a), l)
    ensures Took(s, Apply(s, a), l, if Handles(l, a) then 1 else 0)
  {
    StepKeeps(s, a);
    StepTakes(s, l, a);
  }

  lemma TookMore(s: Server, s1: Server, s2: Server, l: LoopId, steps: seq<Step>)
    requires steps != [] && Took(s, s1, l, if Handles(l, steps[0]) then 1 else 0)
    requires Took(s1, s2, l, HandledBy(l, steps[1..]))
    ensures Took(s, s2, l, HandledBy(l, steps))
  {
    TookBoth(s, s1, s2, l, if Handles(l, steps[0]) then 1 else 0, HandledBy(l, steps[1..]));
  }

  /** All that a poll reports is handled before any functor of that loop runs. */
  lemma BatchIsHandled(s: Server, l: LoopId, active: seq<Item>, steps: seq<Step>)
    requires Reachable(s) && Enabled(s, Poll(l, active)) && LegalRun(Apply(s, Poll(l, active)), steps)
    requires BeginFunctors(l) !in steps && Enabled(Run(Apply(s, Poll(l, active)), steps), BeginFunctors(l))
    ensures HandledBy(l, steps) == |active|
  {
    ReachableInv(s);
    StepKeeps(s, Poll(l, active));
    TakesInOrder(Apply(s, Poll(l, active)), l, steps);
  }
}
