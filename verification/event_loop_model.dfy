/** The functor queue and wakeup protocol of one EventLoop as a concurrent step
    system: the loop's own thread, and any number of other threads. */
module EventLoopModel {
  import opened Functors

  /** An eventfd counter refuses to go beyond this value. */
  const COUNTER_MAX: nat := 0xFFFF_FFFF_FFFF_FFFE

  /** Where the loop's thread stands.
      - `NotLooping`: before the first `Loop`, `Exited`: after one has returned; it may
        be called again.
      - `CheckQuit`: about to test `quit_`; `InPoll`: inside `epoll_wait`.
      - `Dispatching(wake)`: handling active channels; `wake` while the wakeup channel
        is among those still to be handled.
      - `Calling`: `calling_pending_functors_` is set, the queue not yet swapped.
      - `Running`: running the swapped batch; `Nudging`: one of its functors has
        queued another one and is about to write to the eventfd. */
  datatype Pc =
    | NotLooping | CheckQuit | InPoll | Dispatching(wake: bool) | Calling | Running | Nudging | Exited

  /** `pushed` are the other threads that have queued a functor, `quitting` those
      that have set `quit_`, but have not yet written to the eventfd.
      The last four fields are history: all functors in the order of their pushes,
      those started, the length of `log` at the last swap, and the polls entered. */
  datatype State = State(
    pc: Pc, quit: bool, calling: bool, counter: nat,
    pending: seq<Functor>, batch: seq<Functor>,
    pushed: set<Tid>, quitting: set<Tid>,
    log: seq<Functor>, started: seq<Functor>, swapMark: nat, polls: nat)

  const Initial := State(NotLooping, false, false, 0, [], [], {}, {}, [], [], 0, 0)

  datatype Action =
    // the loop's own thread
    | Loop | EnterPoll | LeaveLoop
    | PollReturns(wake: bool) | HandleRead | OwnPush(f: Functor) | OwnQuit | EndDispatch
    | Swap | RunFunctor | OwnWake | EndFunctors
    // another thread
    | Push(t: Tid, f: Functor) | Wake(t: Tid) | SetQuit(t: Tid) | WakeQuit(t: Tid)

  /** The loop's thread is not inside `Loop`. */
  predicate Outside(s: State) { s.pc == NotLooping || s.pc == Exited }

  predicate Free(s: State, t: Tid) { t !in s.pushed && t !in s.quitting }

  predicate Enabled(s: State, a: Action) {
    match a
    case Loop => Outside(s)
    case EnterPoll => s.pc == CheckQuit && !s.quit
    case LeaveLoop => s.pc == CheckQuit && s.quit
    case PollReturns(wake) => s.pc == InPoll && (wake ==> s.counter > 0)
    case HandleRead => s.pc == Dispatching(true)
    case OwnPush(_) => Outside(s) || s.pc.Dispatching? || s.pc.Running?
    case OwnQuit => Outside(s) || s.pc.Dispatching? || s.pc.Running?
    case EndDispatch => s.pc == Dispatching(false)
    case Swap => s.pc == Calling
    case RunFunctor => s.pc == Running && s.batch != []
    case OwnWake => s.pc == Nudging
    case EndFunctors => s.pc == Running && s.batch == []
    case Push(t, _) => Free(s, t)
    case Wake(t) => t in s.pushed
    case SetQuit(t) => Free(s, t)
    case WakeQuit(t) => t in s.quitting
  }

  /** `write` of 1 to the eventfd: refused when the counter is saturated. */
  function Written(counter: nat): nat {
    if counter < COUNTER_MAX then counter + 1 else counter
  }

  function Step(s: State, a: Action): State
    requires Enabled(s, a)
  {
    match a
    case Loop => s.(pc := CheckQuit, quit := false)
    case EnterPoll => s.(pc := InPoll, polls := s.polls + 1)
    case LeaveLoop => s.(pc := Exited)
    case PollReturns(wake) => s.(pc := Dispatching(wake))
    case HandleRead => s.(pc := Dispatching(false), counter := 0)
    case OwnPush(f) =>
      // QueueInLoop on the own thread wakes only while functors are being called.
      s.(pending := s.pending + [f], log := s.log + [f], pc := if s.calling then Nudging else s.pc)
    case OwnQuit => s.(quit := true)
    case EndDispatch => s.(pc := Calling, calling := true)
    case Swap => s.(pc := Running, batch := s.pending, pending := [], swapMark := |s.log|)
    case RunFunctor => s.(batch := s.batch[1..], started := s.started + [s.batch[0]])
    case OwnWake => s.(pc := Running, counter := Written(s.counter))
    case EndFunctors => s.(pc := CheckQuit, calling := false)
    case Push(t, f) => s.(pending := s.pending + [f], log := s.log + [f], pushed := s.pushed + {t})
    case Wake(t) => s.(pushed := s.pushed - {t}, counter := Written(s.counter))
    case SetQuit(t) => s.(quit := true, quitting := s.quitting + {t})
    case WakeQuit(t) => s.(quitting := s.quitting - {t}, counter := Written(s.counter))
  }

  predicate LegalRun(s: State, acts: seq<Action>)
    decreases |acts|
  {
    acts != [] ==> Enabled(s, acts[0]) && LegalRun(Step(s, acts[0]), acts[1..])
  }

  function Run(s: State, acts: seq<Action>): State
    requires LegalRun(s, acts)
    decreases |acts|
  {
    if acts == [] then s else Run(Step(s, acts[0]), acts[1..])
  }

  // --------------------------------------------------------------------- safety

  /** Functors run in the order of their pushes, each once; a batch is exactly what
      was swapped out. */
  predicate Fifo(s: State) {
    && s.log == s.started + s.batch + s.pending
    && s.swapMark <= |s.log|
    && s.started + s.batch == s.log[..s.swapMark]
    && (s.batch != [] ==> s.pc == Running || s.pc == Nudging)
    && (s.calling <==> s.pc == Calling || s.pc == Running || s.pc == Nudging)
  }

  /** The queue is empty, or the eventfd is readable, or someone is between pushing
      and writing, or the loop will swap before it polls again. */
  predicate Covered(s: State) {
    s.pending == [] || s.counter > 0 || s.pushed != {} || s.pc.Dispatching? || s.pc == Calling || s.pc == Nudging
  }

  /** A quit that the loop has not seen keeps the eventfd readable, once written. */
  predicate QuitCovered(s: State) {
    s.quit && s.pc == InPoll ==> s.counter > 0 || s.quitting != {}
  }

  /** `epoll_wait` can stay blocked only when the eventfd is not readable. */
  predicate MayBlock(s: State) { s.pc == InPoll && s.counter == 0 }

  predicate NoLostWakeup(s: State) {
    MayBlock(s) && s.pushed == {} ==> s.pending == []
  }

  lemma StepFifo(s: State, a: Action)
    requires Fifo(s) && Enabled(s, a)
    ensures Fifo(Step(s, a))
  {
    match a
    case OwnPush(f) => PushFifo(s, f);
    case Push(_, f) => PushFifo(s, f);
    case Swap =>
      assert s.started + s.pending + [] == s.started + [] + s.pending;
      assert s.log[..|s.log|] == s.log;
    case RunFunctor =>
      assert s.batch == [s.batch[0]] + s.batch[1..];
      assert (s.started + [s.batch[0]]) + s.batch[1..] == s.started + s.batch;
    case _ =>
  }

  lemma PushFifo(s: State, f: Functor)
    requires Fifo(s)
    ensures s.log + [f] == s.started + s.batch + (s.pending + [f])
    ensures (s.log + [f])[..s.swapMark] == s.log[..s.swapMark]
  {
  }

  /** The loop's own thread queues a functor outside `Loop`: it does so without a
      wakeup, and no functor runs before the first poll has returned. */
  predicate EarlyPush(s: State, a: Action) {
    a.OwnPush? && Outside(s)
  }

  /** The wakeup protocol: every step of every thread keeps a queued functor covered,
      but for a push that the loop's own thread makes outside `Loop`. */
  lemma StepCovered(s: State, a: Action)
    requires Fifo(s) && Enabled(s, a) && Covered(s) && !EarlyPush(s, a)
    ensures Covered(Step(s, a))
  {
    match a
    case Push(t, _) => assert t in Step(s, a).pushed;
    case _ =>
  }

  lemma StepQuitCovered(s: State, a: Action)
    requires Enabled(s, a) && QuitCovered(s)
    ensures QuitCovered(Step(s, a))
  {
    match a
    case SetQuit(t) => assert t in Step(s, a).quitting;
    case _ =>
  }

  /** All of it at once; `early` tells whether there has been an early push. */
  predicate Safe(s: State, early: bool) {
    Fifo(s) && QuitCovered(s) && (early || Covered(s))
  }

  lemma StepSafe(s: State, a: Action, early: bool)
    requires Safe(s, early) && Enabled(s, a)
    ensures Safe(Step(s, a), early || EarlyPush(s, a))
  {
    StepFifo(s, a);
    StepQuitCovered(s, a);
    if !early && !EarlyPush(s, a) { StepCovered(s, a); }
  }

  /** Whether some action of the run is an early push. */
  predicate PushesEarly(s: State, acts: seq<Action>)
    requires LegalRun(s, acts)
    decreases |acts|
  {
    acts != [] && (EarlyPush(s, acts[0]) || PushesEarly(Step(s, acts[0]), acts[1..]))
  }

  lemma {:induction false} RunSafe(s: State, acts: seq<Action>, early: bool)
    requires Safe(s, early) && LegalRun(s, acts)
    ensures Safe(Run(s, acts), early || PushesEarly(s, acts))
    decreases |acts|
  {
    if acts != [] {
      StepSafe(s, acts[0], early);
      RunSafe(Step(s, acts[0]), acts[1..], early || EarlyPush(s, acts[0]));
    }
  }

  // ------------------------------------------------------------- main statements

  /** In every interleaving: what has been started, then the rest of the batch, then
      the queue, is exactly what was pushed, in push order. */
  lemma ExactlyOnceInOrder(acts: seq<Action>)
    requires LegalRun(Initial, acts)
    ensures var s := Run(Initial, acts); s.log == s.started + s.batch + s.pending
  {
    RunSafe(Initial, acts, false);
  }

  ghost predicate NeverLosesWakeup(s: State) {
    forall acts :: LegalRun(s, acts) && !PushesEarly(s, acts) ==> NoLostWakeup(Run(s, acts))
  }

  lemma LosesWakeup(s: State, acts: seq<Action>)
    requires LegalRun(s, acts) && !PushesEarly(s, acts) && !NoLostWakeup(Run(s, acts))
    ensures !NeverLosesWakeup(s)
  {
  }

  /** No wakeup is lost in any continuation of a loop that has just begun, as long as
      its own thread queues only inside `Loop`, exactly when the functors queued before
      it began are covered: the own thread queues without waking, so its early functors
      would wait for some other event. */
  lemma NoLostWakeupIff(s: State)
    requires Fifo(s) && s.pc == CheckQuit && !s.quit
    ensures NeverLosesWakeup(s)
       <==> (s.pending == [] || s.counter > 0 || s.pushed != {})
  {
    if s.pending == [] || s.counter > 0 || s.pushed != {} {
      forall acts | LegalRun(s, acts) && !PushesEarly(s, acts) ensures NoLostWakeup(Run(s, acts)) {
        RunSafe(s, acts, false);
      }
    } else {
      var acts := Before(s, EnterPoll, []);
      assert acts[1..] == [];
      assert !PushesEarly(s, acts);
      LosesWakeup(s, acts);
    }
  }

  /** The same for the whole life of a loop whose thread queues nothing outside
      `Loop`; other threads may do so. */
  lemma WakeupSafe(acts: seq<Action>)
    requires LegalRun(Initial, acts) && !PushesEarly(Initial, acts)
    ensures NoLostWakeup(Run(Initial, acts))
  {
    RunSafe(Initial, acts, false);
  }

  /** A run that does lose one: the loop blocks on a functor that its own thread has
      queued before `Loop`. */
  lemma EarlyPushLosesWakeup(f: Functor)
    ensures exists acts ::
      LegalRun(Initial, acts) && Run(Initial, acts).pending == [f] && !NoLostWakeup(Run(Initial, acts))
  {
    var s1 := Step(Initial, OwnPush(f));
    var s2 := Step(s1, Loop);
    var acts := Before(s2, EnterPoll, []);
    acts := Before(s1, Loop, acts);
    acts := Before(Initial, OwnPush(f), acts);
  }

  /** In every run whatever: a loop that may stay blocked has seen every quit whose
      issuer is done with it. */
  lemma QuitNeverMissed(acts: seq<Action>)
    requires LegalRun(Initial, acts)
    ensures var s := Run(Initial, acts); MayBlock(s) && s.quitting == {} ==> !s.quit
  {
    RunSafe(Initial, acts, false);
  }

  /** Once `quit_` is set inside the loop no further poll is entered, whatever
      happens, before the loop has been left. */
  lemma {:induction false} QuitEndsPolling(s: State, acts: seq<Action>)
    requires !Outside(s) && s.quit && LegalRun(s, acts) && LeaveLoop !in acts
    ensures Run(s, acts).polls == s.polls && Run(s, acts).quit && !Outside(Run(s, acts))
    decreases |acts|
  {
    if acts != [] {
      QuitEndsPolling(Step(s, acts[0]), acts[1..]);
    }
  }

  /** No continuation enters a poll before it has left the loop. */
  ghost predicate QuitHolds(s: State) {
    forall acts :: LegalRun(s, acts) && Run(s, acts).polls != s.polls ==> LeaveLoop in acts
  }

  /** A quit is obeyed in every continuation exactly when it was issued inside `Loop`,
      because `Loop` resets `quit_`, each time it is called. */
  lemma QuitHoldsIff(s: State)
    requires s.quit
    ensures QuitHolds(s) <==> !Outside(s)
  {
    if Outside(s) {
      var poll := Before(Step(s, Loop), EnterPoll, []);
      var acts := Before(s, Loop, poll);
      assert poll == [EnterPoll] && acts == [Loop] + poll;
      assert LegalRun(s, acts) && Run(s, acts).polls == s.polls + 1 && LeaveLoop !in acts;
    } else {
      forall acts | LegalRun(s, acts) && Run(s, acts).polls != s.polls ensures LeaveLoop in acts {
        if LeaveLoop !in acts { QuitEndsPolling(s, acts); }
      }
    }
  }

  /** When the loop leaves, every functor pushed before its last swap has been run,
      and only those. */
  lemma LeavesNothingSwapped(acts: seq<Action>)
    requires LegalRun(Initial, acts) && Run(Initial, acts).pc == Exited
    ensures var s := Run(Initial, acts);
      s.batch == [] && s.swapMark <= |s.log| && s.started == s.log[..s.swapMark] && s.pending == s.log[s.swapMark..]
  {
    RunSafe(Initial, acts, false);
    var s := Run(Initial, acts);
    assert s.log == s.log[..s.swapMark] + s.pending;
  }

  /** `Loop` resets `quit_`: a quit issued before it is forgotten, so the loop may
      block with the quitter long gone. */
  lemma EarlyQuitIsForgotten(t: Tid) returns (acts: seq<Action>)
    ensures |acts| > 2 && acts[0] == SetQuit(t) && acts[1] == WakeQuit(t) && acts[2] == Loop
    ensures LegalRun(Initial, acts) && Run(Initial, acts).quitting == {}
    ensures MayBlock(Run(Initial, acts)) && !Run(Initial, acts).quit
  {
    var s1 := Step(Initial, SetQuit(t));
    var s2 := Step(s1, WakeQuit(t));
    var rest, r := IdleTurn(s2);
    var tail := [WakeQuit(t)] + rest;
    acts := [SetQuit(t)] + tail;
    assert tail[1..] == rest && acts[1..] == tail;
    assert LegalRun(s1, tail) && Run(s1, tail) == r;
  }

  /** One whole turn of an idle loop, ending in the next poll. */
  lemma IdleTurn(s: State) returns (acts: seq<Action>, r: State)
    requires s.pc == NotLooping && s.counter > 0 && s.pending == [] && s.batch == [] && !s.calling
    ensures acts != [] && acts[0] == Loop && LegalRun(s, acts) && r == Run(s, acts)
    ensures r.pc == InPoll && r.counter == 0 && !r.quit && r.quitting == s.quitting
  {
    acts := [];
    var x1 := Step(s, Loop);
    var x2 := Step(x1, EnterPoll);
    var x3 := Step(x2, PollReturns(true));
    var x4 := Step(x3, HandleRead);
    var x5 := Step(x4, EndDispatch);
    var x6 := Step(x5, Swap);
    var x7 := Step(x6, EndFunctors);
    r := Step(x7, EnterPoll);
    acts := Before(x7, EnterPoll, acts);
    acts := Before(x6, EndFunctors, acts);
    acts := Before(x5, Swap, acts);
    acts := Before(x4, EndDispatch, acts);
    acts := Before(x3, HandleRead, acts);
    acts := Before(x2, PollReturns(true), acts);
    acts := Before(x1, EnterPoll, acts);
    acts := Before(s, Loop, acts);
  }

  lemma Before(s: State, a: Action, rest: seq<Action>) returns (acts: seq<Action>)
    requires Enabled(s, a) && LegalRun(Step(s, a), rest)
    ensures acts != [] && acts[0] == a && acts[1..] == rest && LegalRun(s, acts) && Run(s, acts) == Run(Step(s, a), rest)
  {
    acts := [a] + rest;
    assert acts[1..] == rest;
  }

  // ----------------------------------------------------------- bounded functor phase

  function FunctorsRun(acts: seq<Action>): nat {
    if acts == [] then 0 else (if acts[0].RunFunctor? then 1 else 0) + FunctorsRun(acts[1..])
  }

  predicate StaysInPhase(acts: seq<Action>) {
    forall i :: 0 <= i < |acts| ==> !acts[i].EndFunctors?
  }

  /** Functors that queue functors cannot prolong the phase: however many pushes
      happen, only the swapped ones are run before the phase may end. */
  lemma {:induction false} PhaseRunsOnlyTheBatch(s: State, acts: seq<Action>)
    requires s.pc == Running || s.pc == Nudging
    requires LegalRun(s, acts) && StaysInPhase(acts)
    ensures var r := Run(s, acts);
      && (r.pc == Running || r.pc == Nudging)
      && FunctorsRun(acts) + |r.batch| == |s.batch|
    decreases |acts|
  {
    if acts != [] {
      assert StaysInPhase(acts[1..]);
      PhaseRunsOnlyTheBatch(Step(s, acts[0]), acts[1..]);
    }
  }
}
