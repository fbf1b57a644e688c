/**
 * The window in which a committed offset can pass a lost message: a rejected message forces a flush, cancellation
 * makes the flush return early and its batch is dropped, and the rejected message is routed and committed anyway.
 */
module Window {
  import opened Base
  import Errors
  import Messages
  import opened Worker
  import opened World
  import opened Pipeline
  import opened Protocol
  import opened NoLoss

  // ---------------------------------------------------------------------------------------------------------
  // Inside the window the loss is three steps away
  // ---------------------------------------------------------------------------------------------------------

  /** The rejected message is counted, dead-lettered and committed. */
  function Through(cfg: Config, p: nat, m: Messages.Msg): seq<Action>
    requires cfg.parse(m.payload).Err?
  {
    [Work(p, Add(1)),
     Work(p, WriteDlq(m, Errors.NonRetryable(cfg.parse(m.payload).error), Written)),
     Work(p, Commit([m], Done))]
  }

  lemma RunOfThree(env: Env, s: State, a: Action, b: Action, c: Action)
    requires Next(env, s, a).Some? && Next(env, Next(env, s, a).value, b).Some?
    requires Next(env, Next(env, Next(env, s, a).value, b).value, c).Some?
    ensures RunFrom(env, s, [a]) == Next(env, s, a)
    ensures RunFrom(env, s, [a, b]) == Next(env, Next(env, s, a).value, b)
    ensures RunFrom(env, s, [a, b, c]) == Next(env, Next(env, Next(env, s, a).value, b).value, c)
  {
    hide Next;
    assert [a][..0] == [] && [a, b][..1] == [a] && [a, b, c][..2] == [a, b];
  }

  /** The worker's side of Through. */
  lemma ThroughWorker(cfg: Config, w: Worker, m: Messages.Msg) returns (w1: Worker, w2: Worker, w3: Worker)
    requires w.pc == RejectEnter(m) && !Valid(cfg, m)
    ensures Step(cfg, w, Add(1)) == Some(w1) && w1.pc.Handle?
    ensures Step(cfg, w1, WriteDlq(m, Errors.NonRetryable(cfg.parse(m.payload).error), Written)) == Some(w2)
    ensures w2.pc.Handle?
    ensures Step(cfg, w2, Commit([m], Done)) == Some(w3) && w3.pc.HandleExit?
  {
    w1 := HandleAt(cfg, w, m, FromReject);
    w2 := w1.(pc := Handle(CommitCall, m, FromReject));
    w3 := w1.(pc := HandleExit(FromReject));
  }

  /** The three states. */
  lemma ThroughStates(env: Env, s: State, p: nat, m: Messages.Msg) returns (s1: State, s2: State, s3: State)
    requires EnvOk(env) && p < |s.parts| && s.parts[p].worker.Some? && env.cfg.hasWriter
    requires s.parts[p].worker.value.pc == RejectEnter(m) && !Valid(env.cfg, m)
    ensures var acts := Through(env.cfg, p, m);
            && RunFrom(env, s, acts[..1]) == Some(s1)
            && RunFrom(env, s, acts[..2]) == Some(s2)
            && RunFrom(env, s, acts) == Some(s3)
    ensures s1.world == s.world && s2.world == s3.world
    ensures s2.world == s.world.(dlq := s.world.dlq + [Letter(m, Errors.NonRetryable(env.cfg.parse(m.payload).error))])
    ensures HandlesNow(s, s1, p) && HandlesNow(s, s2, p) && HandlesNow(s, s3, p)
    ensures s3.parts[p].committed == m.offset + 1
  {
    var acts := Through(env.cfg, p, m);
    var w1, w2, w3 := ThroughWorker(env.cfg, s.parts[p].worker.value, m);
    s1 := AfterWork(s, p, acts[0].ev, w1);
    s2 := AfterWork(s1, p, acts[1].ev, w2);
    s3 := AfterWork(s2, p, acts[2].ev, w3);
    hide Step, RunFrom;
    RunOfThree(env, s, acts[0], acts[1], acts[2]);
    assert acts[..1] == [acts[0]] && acts[..2] == [acts[0], acts[1]];
  }

  /** Only partition p differs, and its worker is past the entrance of the rejection branch. */
  predicate HandlesNow(s: State, s': State, p: nat) {
    && p < |s.parts| == |s'.parts|
    && (forall q :: 0 <= q < |s.parts| && q != p ==> s'.parts[q] == s.parts[q])
    && s'.parts[p].worker.Some? && (s'.parts[p].worker.value.pc.Handle? || s'.parts[p].worker.value.pc.HandleExit?)
  }

  /** The rejected message is the first of the flow, so committing it covers the gap below it. */
  lemma RejectIsFrontier(env: Env, p: nat, part: Part, m: Messages.Msg)
    requires EnvOk(env) && p < |env.logs| && FlowOk(env, p, part)
    requires part.worker.Some? && part.worker.value.pc == RejectEnter(m)
    ensures 0 <= Frontier(part) < |env.logs[p]| && m == MsgAt(env, p, Frontier(part)) && m.offset == Frontier(part)
    ensures !Valid(env.cfg, m)
  {
    assert Unfinished(part.worker.value) == [m];
    assert Flow(part)[0] == m;
  }

  /** The gap is still there after the rejected message is dead-lettered. */
  lemma GapStays(env: Env, world: World, p: nat, n: nat, reason: Errors.Error)
    requires p < |env.logs| && n < |env.logs[p]| && !SafeBelow(env, world, p, n)
    ensures !SafeBelow(env, world.(dlq := world.dlq + [Letter(MsgAt(env, p, n), reason)]), p, n + 1)
  {
    var o: nat :| o < n && o < |env.logs[p]| && !Safe(env.cfg, world, MsgAt(env, p, o));
    var world' := world.(dlq := world.dlq + [Letter(MsgAt(env, p, n), reason)]);
    assert !Safe(env.cfg, world', MsgAt(env, p, o));
  }

  ghost predicate LosesLater(env: Env, s: State) {
    exists run :: RunFrom(env, s, run).Some? && StaysOutOfWindow(env, s, run)
                  && !NothingLost(env, RunFrom(env, s, run).value)
  }

  lemma WindowLoses(env: Env, s: State, p: nat)
    requires EnvOk(env) && OrderOk(env, s) && p < |s.parts| && InWindow(env, s.world, p, s.parts[p])
    requires forall q :: 0 <= q < |s.parts| && q != p ==> !InWindow(env, s.world, q, s.parts[q])
    ensures LosesLater(env, s)
  {
    var m := s.parts[p].worker.value.pc.m;
    assert FlowOk(env, p, s.parts[p]);
    RejectIsFrontier(env, p, s.parts[p], m);
    var s1, s2, s3 := ThroughStates(env, s, p, m);
    hide FlowOk, HeldOk, Next, SafeBelow, Frontier, InWindow, HandlesNow, NoWindow;
    GapStays(env, s.world, p, m.offset, Errors.NonRetryable(env.cfg.parse(m.payload).error));
    OthersOutOfWindow(env, s, s1, p);
    OthersOutOfWindow(env, s, s2, p);
    OthersOutOfWindow(env, s, s3, p);
    StaysThrough(env, s, p, m, s1, s2, s3);
    assert |s3.parts| == |s.parts| by { HandlesNowSize(s, s3, p); }
    assert !NothingLost(env, s3);
  }

  lemma HandlesNowSize(s: State, s': State, p: nat)
    requires HandlesNow(s, s', p)
    ensures |s'.parts| == |s.parts|
  {
  }

  lemma StaysThrough(env: Env, s: State, p: nat, m: Messages.Msg, s1: State, s2: State, s3: State)
    requires env.cfg.parse(m.payload).Err? && NoWindow(env, s1) && NoWindow(env, s2) && NoWindow(env, s3)
    requires var acts := Through(env.cfg, p, m);
             RunFrom(env, s, acts[..1]) == Some(s1) && RunFrom(env, s, acts[..2]) == Some(s2)
             && RunFrom(env, s, acts) == Some(s3)
    ensures StaysOutOfWindow(env, s, Through(env.cfg, p, m))
  {
    hide RunFrom, NoWindow;
    var acts := Through(env.cfg, p, m);
    assert acts[..2][..1] == acts[..1] && acts[..1][..0] == [] && acts[..3] == acts;
    assert StaysOutOfWindow(env, s, acts[..1]);
    assert StaysOutOfWindow(env, s, acts[..2]);
  }

  lemma OthersOutOfWindow(env: Env, s: State, s': State, p: nat)
    requires HandlesNow(s, s', p) && |s.parts| == |env.logs| && Grows(s.world, s'.world)
    requires forall q :: 0 <= q < |s.parts| && q != p ==> !InWindow(env, s.world, q, s.parts[q])
    ensures NoWindow(env, s')
  {
    hide SafeBelow, Frontier;
    forall q | 0 <= q < |s'.parts|
      ensures !InWindow(env, s'.world, q, s'.parts[q])
    {
      if q != p && Attached(env, s.world, q, s.parts[q]) {
        SafeBelowStays(env, s.world, s'.world, q, Frontier(s.parts[q]));
      }
    }
  }

  lemma StepIsExact(env: Env, s: State, p: nat, ev: Event)
    requires EnvOk(env) && Sound(env, s) && AllSafe(env, s) && NoWindow(env, s)
    requires WorkNext(env, s, p, ev).Some?
    ensures var s' := WorkNext(env, s, p, ev).value;
            p < |s'.parts| == |env.logs| && (LosesLater(env, s') <==> InWindow(env, s'.world, p, s'.parts[p]))
  {
    var s' := WorkNext(env, s, p, ev).value;
    NextKeepsSound(env, s, Work(p, ev));
    WorkPartition(env, s, p, ev);
    WorkLeavesOthers(env, s, p, ev);
    hide WorkNext, AllSafe, InWindow, Sound;
    if InWindow(env, s'.world, p, s'.parts[p]) {
      assert OrderOk(env, s') by { SoundIsOrdered(env, s'); }
      WindowLoses(env, s', p);
    } else {
      WorkKeepsSafe(env, s, p, ev);
      forall run | RunFrom(env, s', run).Some? && StaysOutOfWindow(env, s', run)
        ensures NothingLost(env, RunFrom(env, s', run).value)
      {
        RunKeepsSafe(env, s', run);
        SafeMeansNothingLost(env, RunFrom(env, s', run).value);
      }
    }
  }

  /** A run that has stayed out of the window is sound, safe and out of it. */
  lemma {:induction false} OutOfWindow(env: Env, run: seq<Action>)
    requires EnvOk(env) && Reach(env, run).Some? && StaysOutOfWindow(env, Init(env), run)
    ensures var s := Reach(env, run).value; Sound(env, s) && AllSafe(env, s) && NoWindow(env, s)
  {
    EveryRun(env, run);
    InitSound(env);
    InitAllSafe(env);
    InitNoWindow(env);
    hide Sound, AllSafe, NoWindow, Init, Next;
    RunKeepsSafe(env, Init(env), run);
  }

  /**
   * The window is exact: after any run that stays out of it, and one more step of a worker, a loss without entering
   * the window again is possible if and only if that step entered it.
   */
  lemma {:induction false} WindowIsExact(env: Env, run: seq<Action>, p: nat, ev: Event)
    requires EnvOk(env) && Reach(env, run).Some? && StaysOutOfWindow(env, Init(env), run)
    requires WorkNext(env, Reach(env, run).value, p, ev).Some?
    ensures var s' := WorkNext(env, Reach(env, run).value, p, ev).value;
            p < |s'.parts| == |env.logs| && (LosesLater(env, s') <==> InWindow(env, s'.world, p, s'.parts[p]))
  {
    hide *;
    OutOfWindow(env, run);
    StepIsExact(env, Reach(env, run).value, p, ev);
  }

  lemma SoundIsOrdered(env: Env, s: State)
    requires Sound(env, s)
    ensures OrderOk(env, s)
  {
  }

  lemma WorkLeavesOthers(env: Env, s: State, p: nat, ev: Event)
    requires |s.parts| == |env.logs| && WorkNext(env, s, p, ev).Some? && NoWindow(env, s)
    ensures var s' := WorkNext(env, s, p, ev).value;
            forall q :: 0 <= q < |s'.parts| && q != p ==> !InWindow(env, s'.world, q, s'.parts[q])
  {
    hide Step, Effect, CommittedAfter, SafeBelow, Frontier;
    var s' := WorkNext(env, s, p, ev).value;
    EffectGrows(s.world, ev);
    forall q | 0 <= q < |s'.parts| && q != p
      ensures !InWindow(env, s'.world, q, s'.parts[q])
    {
      assert !InWindow(env, s.world, q, s.parts[q]);
      if Attached(env, s.world, q, s.parts[q]) {
        SafeBelowStays(env, s.world, s'.world, q, Frontier(s.parts[q]));
      }
    }
  }

  // ---------------------------------------------------------------------------------------------------------
  // The guard in the code's own terms
  // ---------------------------------------------------------------------------------------------------------

  /** A rejected message is about to be handled although the flush before it was aborted. */
  predicate RejectsAfterAbort(part: Part) {
    part.worker.Some? && part.worker.value.pc.RejectEnter? && part.worker.value.aborted
  }

  predicate NoRejectAfterAbort(s: State) {
    forall p :: 0 <= p < |s.parts| ==> !RejectsAfterAbort(s.parts[p])
  }

  predicate Guarded(env: Env, s: State, run: seq<Action>) {
    run != [] ==>
      && Guarded(env, s, run[..|run| - 1])
      && (RunFrom(env, s, run).Some? ==> NoRejectAfterAbort(RunFrom(env, s, run).value))
  }

  /** How a worker comes to a rejected message, seen from the step that brings it there. */
  lemma EntersReject(cfg: Config, w: Worker, ev: Event)
    requires Step(cfg, w, ev).Some? && Step(cfg, w, ev).value.pc.RejectEnter?
    ensures ev.Add? || ev == CtxCheck(false)
    ensures ev.Add? ==> w.pc.FlushExit? && Step(cfg, w, ev).value.aborted == w.aborted
    ensures !w.pc.RejectEnter?
  {
    hide TxsOf;
    if w.pc.Handle? {
      HandleStaysHandling(cfg, w, w.pc.h, w.pc.m, w.pc.caller, ev);
      hide HandleStep;
    } else {
      hide HandleStep;
    }
  }

  /** A worker that comes to a rejected message after a flush that ran to its end has let nothing go. */
  lemma UnabortedIsAttached(env: Env, s: State, p: nat, ev: Event)
    requires EnvOk(env) && Sound(env, s) && AllSafe(env, s) && WorkNext(env, s, p, ev).Some?
    requires p < |WorkNext(env, s, p, ev).value.parts| == |env.logs|
    requires !RejectsAfterAbort(WorkNext(env, s, p, ev).value.parts[p])
    ensures !InWindow(env, WorkNext(env, s, p, ev).value.world, p, WorkNext(env, s, p, ev).value.parts[p])
  {
    var part := s.parts[p];
    var w := part.worker.value;
    var s' := WorkNext(env, s, p, ev).value;
    if s'.parts[p].worker.value.pc.RejectEnter? {
      EntersReject(env.cfg, w, ev);
      var n := WorkFlow(env, s, p, ev);
      EffectGrows(s.world, ev);
      hide Step, WorkerOk, SafeBelow, CommitReady, Flow, Slice, Effect, CommittedAfter, OrderOk, ChannelsOk, InFlightOk;
      assert SafePart(env, s.world, Cancelled(s), p, part);
      assert Attached(env, s.world, p, part);
      SafeBelowStays(env, s.world, s'.world, p, Frontier(part));
      assert n == 0 && Frontier(s'.parts[p]) == Frontier(part);
    }
  }

  lemma GuardedWorkOutOfWindow(env: Env, s: State, p: nat, ev: Event)
    requires EnvOk(env) && Sound(env, s) && AllSafe(env, s) && NoWindow(env, s)
    requires WorkNext(env, s, p, ev).Some? && NoRejectAfterAbort(WorkNext(env, s, p, ev).value)
    ensures NoWindow(env, WorkNext(env, s, p, ev).value)
  {
    hide WorkNext, Sound, AllSafe, InWindow, RejectsAfterAbort;
    WorkPartition(env, s, p, ev);
    WorkLeavesOthers(env, s, p, ev);
    UnabortedIsAttached(env, s, p, ev);
  }

  lemma LoopOutOfWindow(env: Env, s: State, a: Action)
    requires EnvOk(env) && Sound(env, s) && NoWindow(env, s) && Next(env, s, a).Some? && !a.Work? && !a.Restart?
    ensures NoWindow(env, Next(env, s, a).value)
  {
    var s' := Next(env, s, a).value;
    hide Next, Sound, SafeBelow, Frontier;
    LoopSameProgress(env, s, a);
    forall q | 0 <= q < |s'.parts|
      ensures !InWindow(env, s'.world, q, s'.parts[q])
    {
      assert SameProgress(s.parts[q], s'.parts[q]) && !InWindow(env, s.world, q, s.parts[q]);
    }
  }

  lemma GuardedStepOutOfWindow(env: Env, s: State, a: Action)
    requires EnvOk(env) && Sound(env, s) && AllSafe(env, s) && NoWindow(env, s)
    requires Next(env, s, a).Some? && NoRejectAfterAbort(Next(env, s, a).value)
    ensures NoWindow(env, Next(env, s, a).value)
  {
    hide WorkNext, Sound, AllSafe, Attached;
    if a.Work? {
      GuardedWorkOutOfWindow(env, s, a.p, a.ev);
      hide NoWindow;
    } else if !a.Restart? {
      LoopOutOfWindow(env, s, a);
      hide Next, NoWindow;
    }
  }

  lemma InitNoWindow(env: Env)
    ensures NoWindow(env, Init(env))
  {
  }

  lemma {:induction false} GuardedRunOutOfWindow(env: Env, s: State, run: seq<Action>)
    requires EnvOk(env) && Sound(env, s) && AllSafe(env, s) && NoWindow(env, s)
    requires RunFrom(env, s, run).Some? && Guarded(env, s, run)
    ensures StaysOutOfWindow(env, s, run)
    ensures NoWindow(env, RunFrom(env, s, run).value)
  {
    if run != [] {
      var before := run[..|run| - 1];
      hide Sound, AllSafe, NoWindow, Next, NoRejectAfterAbort;
      GuardedRunOutOfWindow(env, s, before);
      RunKeepsSound(env, s, before);
      RunKeepsSafe(env, s, before);
      GuardedStepOutOfWindow(env, RunFrom(env, s, before).value, run[|run| - 1]);
    }
  }

  /**
   * No loss, in the code's own terms: in every run in which no worker handles a rejected message after the flush
   * before it was aborted, every offset below a committed offset is stored or dead-lettered.
   */
  lemma {:induction false} NoLossWhenGuarded(env: Env, run: seq<Action>)
    requires EnvOk(env) && Reach(env, run).Some? && Guarded(env, Init(env), run)
    ensures NothingLost(env, Reach(env, run).value)
  {
    hide Sound, AllSafe, NoWindow, Init, RunFrom, Guarded, StaysOutOfWindow, NothingLost;
    InitSound(env);
    InitAllSafe(env);
    InitNoWindow(env);
    GuardedRunOutOfWindow(env, Init(env), run);
    NoLossOutsideWindow(env, run);
  }

  // ---------------------------------------------------------------------------------------------------------
  // The variant that looks at the context again
  // ---------------------------------------------------------------------------------------------------------

  /** An aborted flush has seen the cancelled context, and the second look keeps its worker from going on. */
  predicate AbortsAreCancelled(s: State) {
    forall p :: 0 <= p < |s.parts| && s.parts[p].worker.Some? && s.parts[p].worker.value.aborted ==>
                  Cancelled(s) && !s.parts[p].worker.value.pc.RejectEnter?
  }

  lemma AbortStep(cfg: Config, w: Worker, ev: Event)
    requires WorkerOk(cfg, w) && Step(cfg, w, ev).Some? && Step(cfg, w, ev).value.aborted
    ensures w.aborted || ev == CtxCheck(true) || (ev.WriteDlq? && ev.dlqResult.NotConfigured?)
    ensures cfg.recheckAfterFlush && Step(cfg, w, ev).value.pc.RejectEnter? ==> w.aborted && ev == CtxCheck(false)
  {
    if w.pc.Handle? {
      HandleStaysHandling(cfg, w, w.pc.h, w.pc.m, w.pc.caller, ev);
      AbortHandle(cfg, w, w.pc.h, w.pc.m, w.pc.caller, ev);
      hide HandleStep;
    } else {
      hide HandleStep, TxsOf;
    }
  }

  lemma AbortHandle(cfg: Config, w: Worker, h: HandlePc, m: Messages.Msg, caller: Caller, ev: Event)
    requires w.pc == Handle(h, m, caller) && HandleStep(cfg, w, h, m, caller, ev).Some? && HandleOk(cfg, h, m)
    requires HandleStep(cfg, w, h, m, caller, ev).value.aborted
    ensures w.aborted || ev == CtxCheck(true) || (ev.WriteDlq? && ev.dlqResult.NotConfigured?)
  {
    HandleLeaves(cfg, w, h, m, caller, ev);
  }

  lemma NextKeepsAborts(env: Env, s: State, a: Action)
    requires EnvOk(env) && env.cfg.recheckAfterFlush && Sound(env, s) && AbortsAreCancelled(s) && Next(env, s, a).Some?
    ensures AbortsAreCancelled(Next(env, s, a).value)
  {
    hide Step, Effect, CommittedAfter, WorkerOk, OrderOk, InFlightOk;
    if a.Work? {
      var w := s.parts[a.p].worker.value;
      SoundWorker(env, s, a.p);
      if Step(env.cfg, w, a.ev).value.aborted {
        AbortStep(env.cfg, w, a.ev);
      }
    }
  }

  lemma {:induction false} RecheckIsGuarded(env: Env, s: State, run: seq<Action>)
    requires EnvOk(env) && env.cfg.recheckAfterFlush && Sound(env, s) && AbortsAreCancelled(s)
    requires RunFrom(env, s, run).Some?
    ensures Guarded(env, s, run) && AbortsAreCancelled(RunFrom(env, s, run).value)
  {
    if run != [] {
      hide Sound, Next;
      var before := run[..|run| - 1];
      RecheckIsGuarded(env, s, before);
      RunKeepsSound(env, s, before);
      NextKeepsAborts(env, RunFrom(env, s, before).value, run[|run| - 1]);
    }
  }

  /** With one more look at the context between the flush and the rejected message, no run loses anything. */
  lemma {:induction false} NoLossWithRecheck(env: Env, run: seq<Action>)
    requires EnvOk(env) && env.cfg.recheckAfterFlush && Reach(env, run).Some?
    ensures NothingLost(env, Reach(env, run).value)
  {
    assert AbortsAreCancelled(Init(env));
    hide Sound, Init, RunFrom, Guarded, NothingLost, AbortsAreCancelled;
    InitSound(env);
    RecheckIsGuarded(env, Init(env), run);
    NoLossWhenGuarded(env, run);
  }
}
