/** What the order of actions alone says about `quit_` and about polling, with no
    reference to the loop's state. */
module EventLoopHistory {
  import opened Functors
  import opened EventLoopModel

  predicate IsQuit(a: Action) { a.SetQuit? || a.OwnQuit? }

  /** Some quit has come after the last call of `Loop`. */
  ghost predicate QuitAsked(acts: seq<Action>) {
    exists i :: 0 <= i < |acts| && IsQuit(acts[i]) && forall j :: i < j < |acts| ==> acts[j] != Loop
  }

  /** `Loop` has been called and not left since. */
  ghost predicate InsideLoop(acts: seq<Action>) {
    exists b :: 0 <= b < |acts| && acts[b] == Loop && forall j :: b < j < |acts| ==> acts[j] != LeaveLoop
  }

  lemma {:induction false} RunLast(s: State, acts: seq<Action>)
    requires acts != [] && LegalRun(s, acts)
    ensures var n := |acts| - 1;
      LegalRun(s, acts[..n]) && Enabled(Run(s, acts[..n]), acts[n]) && Run(s, acts) == Step(Run(s, acts[..n]), acts[n])
    decreases |acts|
  {
    var n := |acts| - 1;
    if n > 0 {
      RunLast(Step(s, acts[0]), acts[1..]);
      assert acts[1..][..n - 1] == acts[..n][1..];
    }
  }

  lemma {:induction false} PrefixIsLegal(s: State, acts: seq<Action>, k: nat)
    requires LegalRun(s, acts) && k <= |acts|
    ensures LegalRun(s, acts[..k])
    decreases |acts|
  {
    if k > 0 {
      PrefixIsLegal(Step(s, acts[0]), acts[1..], k - 1);
      assert acts[1..][..k - 1] == acts[..k][1..];
    }
  }

  /** One more action, seen by the two predicates. */
  lemma AskedLast(acts: seq<Action>, a: Action)
    ensures QuitAsked(acts + [a]) <==> IsQuit(a) || (QuitAsked(acts) && a != Loop)
  {
    var all := acts + [a];
    if QuitAsked(all) && !IsQuit(a) {
      var i :| 0 <= i < |all| && IsQuit(all[i]) && forall j :: i < j < |all| ==> all[j] != Loop;
      assert all[|acts|] == a && acts[i] == all[i];
      forall j | i < j < |acts| ensures acts[j] != Loop { assert acts[j] == all[j]; }
    }
    if QuitAsked(acts) && a != Loop {
      var i :| 0 <= i < |acts| && IsQuit(acts[i]) && forall j :: i < j < |acts| ==> acts[j] != Loop;
      assert all[i] == acts[i];
    }
    if IsQuit(a) { assert all[|acts|] == a; }
  }

  lemma InsideLast(acts: seq<Action>, a: Action)
    ensures InsideLoop(acts + [a]) <==> a == Loop || (InsideLoop(acts) && a != LeaveLoop)
  {
    var all := acts + [a];
    if InsideLoop(all) && a != Loop {
      var b :| 0 <= b < |all| && all[b] == Loop && forall j :: b < j < |all| ==> all[j] != LeaveLoop;
      assert all[|acts|] == a && acts[b] == all[b];
      forall j | b < j < |acts| ensures acts[j] != LeaveLoop { assert acts[j] == all[j]; }
    }
    if InsideLoop(acts) && a != LeaveLoop {
      var b :| 0 <= b < |acts| && acts[b] == Loop && forall j :: b < j < |acts| ==> acts[j] != LeaveLoop;
      assert all[b] == acts[b];
    }
    if a == Loop { assert all[|acts|] == a; }
  }

  /** `quit_` is set exactly when some thread has called `Quit` since the last call of
      `Loop`. */
  lemma {:induction false} QuitIffAsked(acts: seq<Action>)
    requires LegalRun(Initial, acts)
    ensures Run(Initial, acts).quit <==> QuitAsked(acts)
    decreases |acts|
  {
    if acts != [] {
      var n := |acts| - 1;
      RunLast(Initial, acts);
      QuitIffAsked(acts[..n]);
      AskedLast(acts[..n], acts[n]);
      assert acts == acts[..n] + [acts[n]];
    }
  }

  lemma {:induction false} InsideIff(acts: seq<Action>)
    requires LegalRun(Initial, acts)
    ensures !Outside(Run(Initial, acts)) <==> InsideLoop(acts)
    decreases |acts|
  {
    if acts != [] {
      var n := |acts| - 1;
      RunLast(Initial, acts);
      InsideIff(acts[..n]);
      InsideLast(acts[..n], acts[n]);
      RunSafe(Initial, acts[..n], false);
      assert acts == acts[..n] + [acts[n]];
    }
  }

  /** From a quit inside the loop on, until the loop is left, the quit stays asked. */
  lemma {:induction false} StaysAsked(acts: seq<Action>, i: nat, k: nat)
    requires LegalRun(Initial, acts) && i < k <= |acts|
    requires IsQuit(acts[i]) && InsideLoop(acts[..i])
    requires forall j :: i < j < k ==> acts[j] != LeaveLoop
    ensures QuitAsked(acts[..k]) && InsideLoop(acts[..k])
    decreases k
  {
    var a := acts[k - 1];
    assert acts[..k] == acts[..k - 1] + [a];
    AskedLast(acts[..k - 1], a);
    InsideLast(acts[..k - 1], a);
    if k - 1 > i {
      StaysAsked(acts, i, k - 1);
      PrefixIsLegal(Initial, acts, k);
      RunLast(Initial, acts[..k]);
      assert acts[..k][..k - 1] == acts[..k - 1];
      InsideIff(acts[..k - 1]);
    }
  }

  /** In every run: after a quit, own or foreign, that comes inside `Loop`, no poll is
      entered before the loop has been left. */
  lemma QuitIsObeyed(acts: seq<Action>, i: nat, k: nat)
    requires LegalRun(Initial, acts) && i < k < |acts|
    requires IsQuit(acts[i]) && InsideLoop(acts[..i]) && acts[k] == EnterPoll
    ensures exists j :: i < j < k && acts[j] == LeaveLoop
  {
    if forall j :: i < j < k ==> acts[j] != LeaveLoop {
      StaysAsked(acts, i, k);
      PrefixIsLegal(Initial, acts, k + 1);
      RunLast(Initial, acts[..k + 1]);
      assert acts[..k + 1][..k] == acts[..k];
      QuitIffAsked(acts[..k]);
      assert false;
    }
  }

  // -------------------------------------------------------------------- functors

  /** The functors that the actions queue, in order. */
  function Pushes(acts: seq<Action>): seq<Functor> {
    if acts == [] then []
    else
      (match acts[0]
       case OwnPush(f) => [f]
       case Push(_, f) => [f]
       case _ => []) + Pushes(acts[1..])
  }

  lemma {:induction false} RunCounts(s: State, acts: seq<Action>)
    requires LegalRun(s, acts)
    ensures var r := Run(s, acts);
      r.log == s.log + Pushes(acts) && |r.started| == |s.started| + FunctorsRun(acts)
    decreases |acts|
  {
    if acts == [] {
      assert s.log + [] == s.log;
    } else {
      RunCounts(Step(s, acts[0]), acts[1..]);
      LogsItsPush(s, acts[0], Pushes(acts[1..]));
    }
  }

  lemma LogsItsPush(s: State, a: Action, rest: seq<Functor>)
    requires Enabled(s, a)
    ensures Step(s, a).log + rest == s.log + ((match a case OwnPush(f) => [f] case Push(_, f) => [f] case _ => []) + rest)
  {
  }

  /** Every functor that any thread queues, at whatever moment, has been started, is in
      the batch or waits in the queue, in the order of the pushes; and as many have
      been started as there were runs. */
  lemma EveryPushIsKept(acts: seq<Action>)
    requires LegalRun(Initial, acts)
    ensures var s := Run(Initial, acts);
      Pushes(acts) == s.started + s.batch + s.pending && |s.started| == FunctorsRun(acts)
  {
    RunCounts(Initial, acts);
    ExactlyOnceInOrder(acts);
    assert [] + Pushes(acts) == Pushes(acts);
  }
}
