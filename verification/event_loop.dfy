/** EventLoop as an object. Each write to shared state is one action of
    EventLoopModel, and between any two of them other threads may take any number
    of actions of their own (`Interfere`). */
module EventLoops {
  import opened Functors
  import opened EventLoopModel

  class EventLoop {
    var looping: bool
    var quit: bool
    var callingPendingFunctors: bool
    var pendingFunctors: seq<Functor>
    var wakeupCounter: nat
    var pushed: set<Tid>    // where the other threads stand
    var quitting: set<Tid>
    ghost var pc: Pc
    ghost var batch: seq<Functor>
    ghost var log: seq<Functor>
    ghost var started: seq<Functor>
    ghost var swapMark: nat
    ghost var polls: nat
    ghost var early: bool   // the own thread has queued a functor outside `Loop`

    ghost function View(): State
      reads this
    {
      State(pc, quit, callingPendingFunctors, wakeupCounter, pendingFunctors, batch,
            pushed, quitting, log, started, swapMark, polls)
    }

    /** First-in first-out, no quit missed and, unless the own thread was early, no
        wakeup lost, at every point. */
    ghost predicate Valid()
      reads this
    {
      Safe(View(), early)
    }

    /** The object has taken the single action `a` since the old state. */
    twostate predicate Took(a: Action)
      reads this
    {
      && Valid() && Enabled(old(View()), a) && View() == Step(old(View()), a)
      && early == (old(early) || EarlyPush(old(View()), a))
    }

    constructor ()
      ensures Valid() && View() == Initial && !early
    {
      looping, quit, callingPendingFunctors, pendingFunctors, wakeupCounter := false, false, false, [], 0;
      pc, batch, pushed, quitting, log, started, swapMark, polls := NotLooping, [], {}, {}, [], [], 0, 0;
      early := false;
    }

    // ---------------------------------------------------------- other threads

    method Push(t: Tid, f: Functor)
      requires Valid() && Free(View(), t)
      modifies this
      ensures Took(Action.Push(t, f)) && OnlyForeign() && pendingFunctors == old(pendingFunctors) + [f]
    {
      ghost var before := View();
      pendingFunctors, log := pendingFunctors + [f], log + [f];
      pushed := pushed + {t};
      StepSafe(before, Action.Push(t, f), early);
    }

    method WriteEventfd()
      modifies this`wakeupCounter
      ensures wakeupCounter == Written(old(wakeupCounter))
    {
      if wakeupCounter < COUNTER_MAX {
        wakeupCounter := wakeupCounter + 1;
      }
    }

    method Wake(t: Tid)
      requires Valid() && t in pushed
      modifies this
      ensures Took(Action.Wake(t)) && OnlyForeign()
    {
      ghost var before := View();
      WriteEventfd();
      pushed := pushed - {t};
      StepSafe(before, Action.Wake(t), early);
    }

    method SetQuit(t: Tid)
      requires Valid() && Free(View(), t)
      modifies this
      ensures Took(Action.SetQuit(t)) && OnlyForeign() && quit
    {
      ghost var before := View();
      quit := true;
      quitting := quitting + {t};
      StepSafe(before, Action.SetQuit(t), early);
    }

    method WakeQuit(t: Tid)
      requires Valid() && t in quitting
      modifies this
      ensures Took(Action.WakeQuit(t)) && OnlyForeign()
    {
      ghost var before := View();
      WriteEventfd();
      quitting := quitting - {t};
      StepSafe(before, Action.WakeQuit(t), early);
    }

    /** What any number of foreign actions may change: the queue and its history grow
        at the end, `quit_` may become set, nothing of the loop thread's own moves. */
    twostate predicate OnlyForeign()
      reads this
    {
      && pc == old(pc) && batch == old(batch) && started == old(started) && swapMark == old(swapMark)
      && polls == old(polls) && callingPendingFunctors == old(callingPendingFunctors)
      && looping == old(looping) && early == old(early)
      && old(pendingFunctors) <= pendingFunctors && old(log) <= log
      && (old(quit) ==> quit)
      && (pc != InPoll || old(wakeupCounter) <= wakeupCounter)
    }

    /** Other threads run: any number of actions, by any threads, in any order. */
    method Interfere()
      requires Valid()
      modifies this
      ensures Valid() && OnlyForeign()
    {
      var n: nat :| true;
      for i := 0 to n
        invariant Valid() && OnlyForeign()
      {
        ForeignAction();
      }
    }

    method ForeignAction()
      requires Valid()
      modifies this
      ensures Valid() && OnlyForeign()
    {
      var t: Tid, f: Functor, which: nat :| true;
      if which == 0 && t !in pushed && t !in quitting {
        Push(t, f);
      } else if which == 1 && t in pushed {
        Wake(t);
      } else if which == 2 && t !in pushed && t !in quitting {
        SetQuit(t);
      } else if which == 3 && t in quitting {
        WakeQuit(t);
      }
    }

    // ----------------------------------------------------- the loop's own thread

    /** `QueueInLoop` on the own thread, outside `Loop` or in code that the loop runs:
        push, then write to the eventfd if functors are being called. */
    method QueueInLoop(f: Functor)
      requires Valid() && (Outside(View()) || pc.Dispatching? || pc.Running?)
      modifies this
      ensures Valid() && pc == old(pc) && looping == old(looping) && early == (old(early) || Outside(old(View())))
      ensures batch == old(batch) && started == old(started) && swapMark == old(swapMark) && polls == old(polls)
      ensures callingPendingFunctors == old(callingPendingFunctors) && (old(quit) ==> quit)
      ensures old(log) + [f] <= log && old(pendingFunctors) + [f] <= pendingFunctors
      ensures callingPendingFunctors ==> wakeupCounter > 0
    {
      PushOwn(f);
      Interfere();
      if callingPendingFunctors {
        WakeOwn();
      }
    }

    method PushOwn(f: Functor)
      requires Valid() && (Outside(View()) || pc.Dispatching? || pc.Running?)
      modifies this
      ensures Took(OwnPush(f)) && looping == old(looping)
    {
      ghost var before := View();
      pendingFunctors, log := pendingFunctors + [f], log + [f];
      StepSafe(before, OwnPush(f), early);
      if callingPendingFunctors { pc := Nudging; }
      early := early || Outside(before);
    }

    method WakeOwn()
      requires Valid() && pc == Nudging
      modifies this
      ensures Took(OwnWake) && looping == old(looping) && wakeupCounter > 0
    {
      ghost var before := View();
      WriteEventfd();
      pc := Running;
      StepSafe(before, OwnWake, early);
    }

    /** `Quit` on the loop's own thread writes nothing to the eventfd. */
    method OwnQuit()
      requires Valid() && (Outside(View()) || pc.Dispatching? || pc.Running?)
      modifies this
      ensures Took(Action.OwnQuit) && looping == old(looping) && quit
    {
      ghost var before := View();
      quit := true;
      StepSafe(before, Action.OwnQuit, early);
    }

    /** What user code inside the loop may change: as `OnlyForeign`, but the eventfd may
        have been written by the own thread. */
    twostate predicate OnlyQueued()
      reads this
    {
      && pc == old(pc) && batch == old(batch) && started == old(started) && swapMark == old(swapMark)
      && polls == old(polls) && callingPendingFunctors == old(callingPendingFunctors)
      && looping == old(looping) && early == old(early)
      && old(pendingFunctors) <= pendingFunctors && old(log) <= log
      && (old(quit) ==> quit)
    }

    /** User code run by the loop (a callback or a functor): it may queue functors and
        quit, any number of times, while other threads interfere. */
    method RunUserCode()
      requires Valid() && (pc.Dispatching? || pc.Running?)
      modifies this
      ensures Valid() && OnlyQueued()
    {
      var n: nat :| true;
      for i := 0 to n
        invariant Valid() && OnlyQueued()
      {
        UserAction();
      }
    }

    method UserAction()
      requires Valid() && (pc.Dispatching? || pc.Running?)
      modifies this
      ensures Valid() && OnlyQueued()
    {
      var f: Functor, quits: bool :| true;
      if quits { OwnQuit(); } else { QueueInLoop(f); }
      Interfere();
    }

    method SetCalling()
      requires Valid() && pc == Dispatching(false)
      modifies this
      ensures Took(EndDispatch) && looping == old(looping)
    {
      ghost var before := View();
      callingPendingFunctors := true;
      pc := Calling;
      StepSafe(before, EndDispatch, early);
    }

    method SwapPending() returns (functors: seq<Functor>)
      requires Valid() && pc == Calling
      modifies this
      ensures Took(Swap) && functors == old(pendingFunctors) && looping == old(looping)
    {
      ghost var before := View();
      functors, pendingFunctors := pendingFunctors, [];
      batch, swapMark, pc := functors, |log|, Running;
      StepSafe(before, Swap, early);
    }

    ghost method StartFunctor()
      requires Valid() && pc == Running && batch != []
      modifies this
      ensures Took(Action.RunFunctor) && looping == old(looping)
    {
      ghost var before := View();
      batch, started := batch[1..], started + [batch[0]];
      StepSafe(before, Action.RunFunctor, early);
    }

    method ClearCalling()
      requires Valid() && pc == Running && batch == []
      modifies this
      ensures Took(EndFunctors) && looping == old(looping)
    {
      ghost var before := View();
      callingPendingFunctors := false;
      pc := CheckQuit;
      StepSafe(before, EndFunctors, early);
    }

    /** Set `calling_pending_functors_`, then swap the queue out under the lock. */
    method BeginCalling() returns (functors: seq<Functor>)
      requires Valid() && pc == Dispatching(false)
      modifies this
      ensures Valid() && pc == Running && batch == functors && started + functors == log[..swapMark]
      ensures old(started) == started && old(pendingFunctors) <= functors && old(log) <= log[..swapMark]
      ensures looping == old(looping) && early == old(early) && polls == old(polls) && (old(quit) ==> quit)
    {
      SetCalling();
      Interfere();
      functors := SwapPending();
      assert log[..swapMark] == log;
      Interfere();
    }

    /** Swap the queue out and run it once through. Everything queued before the call
        is run by it, in order, and nothing queued while it runs. */
    method DoPendingFunctors()
      requires Valid() && pc == Dispatching(false)
      modifies this
      ensures Valid() && pc == CheckQuit && batch == [] && looping == old(looping) && early == old(early) && polls == old(polls)
      ensures started == log[..swapMark] && old(started) + old(pendingFunctors) <= started
      ensures old(log) <= log[..swapMark] && (old(quit) ==> quit)
    {
      var functors := BeginCalling();
      RunBatch(functors);
      Interfere();
      ClearCalling();
    }

    /** The loop over the swapped functors. */
    method RunBatch(functors: seq<Functor>)
      requires Valid() && pc == Running && batch == functors
      modifies this
      ensures Valid() && pc == Running && batch == [] && swapMark == old(swapMark)
      ensures started == old(started) + functors
      ensures looping == old(looping) && early == old(early) && polls == old(polls) && (old(quit) ==> quit) && old(log) <= log
    {
      for i := 0 to |functors|
        invariant Valid() && pc == Running && batch == functors[i..] && swapMark == old(swapMark)
        invariant started == old(started) + functors[..i]
        invariant looping == old(looping) && early == old(early) && polls == old(polls) && (old(quit) ==> quit) && old(log) <= log
      {
        StartFunctor();
        RunUserCode();
      }
    }

    /** `HandleRead` of the wakeup channel, when the poll reported it. */
    method HandleRead()
      requires Valid() && pc == Dispatching(true)
      modifies this
      ensures Took(Action.HandleRead) && looping == old(looping)
    {
      ghost var before := View();
      wakeupCounter := 0;
      pc := Dispatching(false);
      StepSafe(before, Action.HandleRead, early);
    }

    /** `epoll_wait` returns: because the wakeup channel is ready, because another
        channel is, or because the time is over. */
    method Poll() returns (wake: bool)
      requires Valid() && pc == CheckQuit && !quit
      modifies this
      ensures Valid() && pc == Dispatching(wake) && looping == old(looping) && early == old(early) && polls == old(polls) + 1
      ensures wake ==> wakeupCounter > 0
      ensures old(pendingFunctors) <= pendingFunctors && old(log) <= log && started == old(started)
    {
      ghost var before := View();
      pc, polls := InPoll, polls + 1;
      StepSafe(before, EnterPoll, early);
      Interfere();
      var ready: bool :| true;
      wake := ready && wakeupCounter > 0;
      before := View();
      pc := Dispatching(wake);
      StepSafe(before, PollReturns(wake), early);
    }

    method Start()
      requires Valid() && Outside(View())
      modifies this
      ensures Took(Action.Loop) && looping
    {
      ghost var before := View();
      looping := true;
      quit := false;
      pc := CheckQuit;
      StepSafe(before, Action.Loop, early);
    }

    /** One turn: poll, handle the active channels, run the pending functors. */
    method Turn()
      requires Valid() && pc == CheckQuit && !quit
      modifies this
      ensures Valid() && pc == CheckQuit && batch == [] && started == log[..swapMark]
      ensures looping == old(looping) && early == old(early) && polls == old(polls) + 1
      ensures old(started) + old(pendingFunctors) <= started
    {
      var wake := Poll();
      RunUserCode();
      if wake { HandleRead(); }
      RunUserCode();
      DoPendingFunctors();
    }

    method Leave()
      requires Valid() && pc == CheckQuit && quit
      modifies this
      ensures Took(LeaveLoop) && !looping
    {
      ghost var before := View();
      looping := false;
      pc := Exited;
      StepSafe(before, LeaveLoop, early);
    }

    /** `Loop`, watched for at most `rounds` turns. When it ends, it has run exactly
        the functors pushed before its last swap. */
    method Loop(rounds: nat)
      requires Valid() && Outside(View())
      modifies this
      ensures Valid() && (pc == CheckQuit || pc == Exited)
      ensures started == log[..swapMark] && batch == []
      ensures pc == Exited ==> quit && !looping && pendingFunctors == log[swapMark..]
      ensures polls <= old(polls) + rounds && early == old(early)
      ensures pc == CheckQuit ==> looping && polls == old(polls) + rounds
    {
      Start();
      Interfere();
      var i := 0;
      while !quit && i < rounds
        invariant Valid() && pc == CheckQuit && batch == []
        invariant i <= rounds && polls == old(polls) + i && early == old(early) && looping
      {
        Turn();
        Interfere();
        i := i + 1;
      }
      if quit {
        Leave();
        assert log == log[..swapMark] + pendingFunctors;
      }
    }
  }
}
