/** After cancellation: how much a worker still does, and that an aborted flush has no further effect. */
module Shutdown {
  import opened Base
  import Commits
  import Messages
  import opened Worker
  import opened World
  import opened Pipeline
  import opened Protocol
  import opened NoLoss

  predicate IsCall(ev: Event) {
    ev.BulkService? || ev.Service? || ev.WriteDlq? || ev.Commit?
  }

  /** The ticks that find nothing to flush. */
  predicate IsIdle(w: Worker, ev: Event) {
    w.pc.Select? && w.batch == [] && ev.Tick?
  }

  /** Calls that handleMessage can still make on a cancelled context, by its position. */
  function HandleCalls(h: HandlePc): nat {
    match h
    case ServiceCall(_) => 1
    case ServiceFailed(_, _) => 0
    case DlqCall(_) => 2
    case DlqFailed(_) => 0
    case CommitCall => 1
    case CommitFailed => 0
  }

  /** Messages of the batch after the i-th. */
  function After(w: Worker, i: nat): nat {
    if i < |w.batch| then |w.batch| - i - 1 else 0
  }

  /** What a rejected message waiting behind the flush costs: a dead letter and a commit. */
  function WaitingCalls(w: Worker): nat {
    if w.ret.ToReject? then 2 else 0
  }

  /** At most this many service, dead-letter and commit calls follow on a cancelled context. */
  function CallsLeft(w: Worker): nat {
    match w.pc
    case Select => if w.batch == [] then 0 else 1
    case Received(_) => 0
    case FlushEnter => 1 + WaitingCalls(w)
    case BulkCall(_) => 1 + WaitingCalls(w)
    case BulkFailed(_, _) => WaitingCalls(w)
    case BulkCommit => 1 + WaitingCalls(w)
    case BulkCommitFailed => WaitingCalls(w)
    case FallbackEnter => |w.batch| + WaitingCalls(w)
    case FallbackLoop(i) => (if i < |w.batch| then |w.batch| - i else 0) + WaitingCalls(w)
    case FlushExit => WaitingCalls(w)
    case RejectRecheck(_) => 2
    case RejectEnter(_) => 2
    case Handle(h, _, FromFallback(i)) => HandleCalls(h) + After(w, i) + WaitingCalls(w)
    case Handle(h, _, FromReject) => HandleCalls(h)
    case HandleExit(FromFallback(i)) => After(w, i) + WaitingCalls(w)
    case HandleExit(FromReject) => 0
    case Stopped => 0
  }

  function HandleSteps(h: HandlePc): nat {
    match h
    case ServiceCall(_) => 2
    case ServiceFailed(_, _) => 1
    case DlqCall(_) => 3
    case DlqFailed(_) => 1
    case CommitCall => 2
    case CommitFailed => 1
  }

  function WaitingSteps(w: Worker): nat {
    if w.ret.ToReject? then 8 else 2
  }

  /** At most this many interactions of any kind follow on a cancelled context, idle ticks apart. */
  function StepsLeft(w: Worker): nat {
    match w.pc
    case Select => if w.batch == [] then 2 else 7
    case Received(_) => 1
    case FlushEnter => 4 + WaitingSteps(w)
    case BulkCall(_) => 3 + WaitingSteps(w)
    case BulkFailed(_, _) => 2 + WaitingSteps(w)
    case BulkCommit => 3 + WaitingSteps(w)
    case BulkCommitFailed => 2 + WaitingSteps(w)
    case FallbackEnter => 4 * |w.batch| + 3 + WaitingSteps(w)
    case FallbackLoop(i) => (if i < |w.batch| then 4 * (|w.batch| - i) else 0) + 2 + WaitingSteps(w)
    case FlushExit => 1 + WaitingSteps(w)
    case RejectRecheck(_) => 8
    case RejectEnter(_) => 7
    case Handle(h, _, FromFallback(i)) => HandleSteps(h) + 4 * After(w, i) + 3 + WaitingSteps(w)
    case Handle(h, _, FromReject) => HandleSteps(h) + 3
    case HandleExit(FromFallback(i)) => 4 * After(w, i) + 3 + WaitingSteps(w)
    case HandleExit(FromReject) => 3
    case Stopped => 0
  }

  /** The measures are bounded by the batch size alone. */
  lemma MeasuresBounded(cfg: Config, w: Worker)
    requires Normalized(cfg) && WorkerOk(cfg, w)
    ensures CallsLeft(w) <= cfg.batchSize + 2
    ensures StepsLeft(w) <= 4 * cfg.batchSize + 13
  {
  }

  lemma HandleDescends(cfg: Config, w: Worker, h: HandlePc, m: Messages.Msg, caller: Caller, ev: Event)
    requires HandleStep(cfg, w, h, m, caller, ev).Some? && AdmitsCancelled(cfg, ev)
    ensures var w' := HandleStep(cfg, w, h, m, caller, ev).value;
            && (w'.pc == HandleExit(caller)
                || (w'.pc.Handle? && w'.pc.m == m && w'.pc.caller == caller
                    && HandleCalls(w'.pc.h) + (if IsCall(ev) then 1 else 0) <= HandleCalls(h)
                    && HandleSteps(w'.pc.h) < HandleSteps(h)))
            && (IsCall(ev) ==> HandleCalls(h) >= 1)
            && w'.batch == w.batch && w'.ret == w.ret
  {
  }

  /** Every interaction on a cancelled context, other than an idle tick, uses up the measures. */
  lemma StepDescends(cfg: Config, w: Worker, ev: Event)
    requires Normalized(cfg) && WorkerOk(cfg, w) && Step(cfg, w, ev).Some? && AdmitsCancelled(cfg, ev)
    ensures CallsLeft(Step(cfg, w, ev).value) + (if IsCall(ev) then 1 else 0) <= CallsLeft(w)
    ensures if IsIdle(w, ev) then StepsLeft(Step(cfg, w, ev).value) == StepsLeft(w)
            else StepsLeft(Step(cfg, w, ev).value) < StepsLeft(w)
  {
    if w.pc.Handle? {
      HandleDescends(cfg, w, w.pc.h, w.pc.m, w.pc.caller, ev);
      hide HandleStep, HandleCalls, HandleSteps;
    } else if InBulk(w.pc) {
      BulkDescends(cfg, w, ev);
      hide HandleStep, BulkStep, FrameStep, ReceivedStep, SelectStep;
    } else if w.pc.Select? || w.pc.Received? {
      hide HandleStep, BulkStep, FrameStep;
    } else if w.pc.FallbackLoop? {
      FallbackDescends(cfg, w, ev);
      hide HandleStep, BulkStep, FrameStep, ReceivedStep, SelectStep;
    } else {
      FrameDescends(cfg, w, ev);
      hide HandleStep, BulkStep, FrameStep, ReceivedStep, SelectStep;
    }
  }

  lemma BulkDescends(cfg: Config, w: Worker, ev: Event)
    requires Normalized(cfg) && WorkerOk(cfg, w) && InBulk(w.pc) && BulkStep(cfg, w, ev).Some?
    requires AdmitsCancelled(cfg, ev)
    ensures CallsLeft(BulkStep(cfg, w, ev).value) + (if IsCall(ev) then 1 else 0) <= CallsLeft(w)
    ensures StepsLeft(BulkStep(cfg, w, ev).value) < StepsLeft(w)
  {
  }

  lemma FallbackDescends(cfg: Config, w: Worker, ev: Event)
    requires Normalized(cfg) && WorkerOk(cfg, w) && w.pc.FallbackLoop? && FrameStep(cfg, w, ev).Some?
    ensures CallsLeft(FrameStep(cfg, w, ev).value) + (if IsCall(ev) then 1 else 0) <= CallsLeft(w)
    ensures StepsLeft(FrameStep(cfg, w, ev).value) < StepsLeft(w)
  {
  }

  lemma FrameDescends(cfg: Config, w: Worker, ev: Event)
    requires Normalized(cfg) && WorkerOk(cfg, w) && !w.pc.FallbackLoop? && FrameStep(cfg, w, ev).Some?
    requires AdmitsCancelled(cfg, ev)
    ensures CallsLeft(FrameStep(cfg, w, ev).value) + (if IsCall(ev) then 1 else 0) <= CallsLeft(w)
    ensures StepsLeft(FrameStep(cfg, w, ev).value) < StepsLeft(w)
  {
  }

  // ---------------------------------------------------------------------------------------------------------
  // Runs
  // ---------------------------------------------------------------------------------------------------------

  /** Service, dead-letter and commit calls of worker p in a run. */
  function CallsOf(run: seq<Action>, p: nat): nat {
    if run == [] then 0
    else
      var a := run[|run| - 1];
      CallsOf(run[..|run| - 1], p) + (if a.Work? && a.p == p && IsCall(a.ev) then 1 else 0)
  }

  predicate NoRestart(run: seq<Action>) {
    forall i :: 0 <= i < |run| ==> !run[i].Restart?
  }

  function CallsLeftAt(s: State, p: nat): nat {
    if p < |s.parts| && s.parts[p].worker.Some? then CallsLeft(s.parts[p].worker.value) else 0
  }

  /** The measures along one step of a worker on a cancelled context. */
  lemma CancelledWork(env: Env, s: State, p: nat, ev: Event)
    requires EnvOk(env) && Sound(env, s) && Cancelled(s) && WorkNext(env, s, p, ev).Some?
    ensures var s' := WorkNext(env, s, p, ev).value;
            && p < |s.parts| == |s'.parts| && s.parts[p].worker.Some? && s'.parts[p].worker.Some?
            && s'.parts == s.parts[p := s'.parts[p]] && Cancelled(s')
            && var w := s.parts[p].worker.value;
               var w' := s'.parts[p].worker.value;
               && CallsLeft(w') + (if IsCall(ev) then 1 else 0) <= CallsLeft(w)
               && (StepsLeft(w') < StepsLeft(w) || (IsIdle(w, ev) && w' == w.(ret := ToSelect, aborted := false)))
               && StepsLeft(w) <= 4 * env.cfg.batchSize + 13
  {
    assert FlowOk(env, p, s.parts[p]);
    var w := s.parts[p].worker.value;
    Commits.CancelledAdmits(env, s, p, ev);
    if IsIdle(w, ev) {
      IdleTick(env.cfg, w, ev);
    }
    hide Step, Effect, CommittedAfter, WorkerOk, StepsLeft, CallsLeft, Slice, Flow, IsCall, IsIdle, ChannelsOk, HeldOk;
    StepDescends(env.cfg, w, ev);
    MeasuresBounded(env.cfg, w);
  }

  lemma CancelledStep(env: Env, s: State, a: Action, p: nat)
    requires EnvOk(env) && Sound(env, s) && Cancelled(s) && Next(env, s, a).Some? && !a.Restart?
    ensures Cancelled(Next(env, s, a).value)
    ensures CallsLeftAt(Next(env, s, a).value, p) + (if a.Work? && a.p == p && IsCall(a.ev) then 1 else 0)
            <= CallsLeftAt(s, p)
  {
    if a.Work? {
      CancelledWork(env, s, a.p, a.ev);
      hide WorkNext, CallsLeft, Sound, StepsLeft, IsIdle;
    } else {
      LoopSameProgress(env, s, a);
      assert CallsLeft(FreshWorker) == 0;
      hide Next, CallsLeft, Sound, Frontier;
      if p < |s.parts| {
        assert SameProgress(s.parts[p], Next(env, s, a).value.parts[p]);
      }
    }
  }

  lemma {:induction false} CancelledRun(env: Env, s: State, run: seq<Action>, p: nat)
    requires EnvOk(env) && Sound(env, s) && Cancelled(s) && RunFrom(env, s, run).Some? && NoRestart(run)
    ensures Cancelled(RunFrom(env, s, run).value)
    ensures CallsLeftAt(RunFrom(env, s, run).value, p) + CallsOf(run, p) <= CallsLeftAt(s, p)
  {
    if run != [] {
      hide Sound, Next, CallsLeftAt;
      var before := run[..|run| - 1];
      CancelledRun(env, s, before, p);
      RunKeepsSound(env, s, before);
      CancelledStep(env, RunFrom(env, s, before).value, run[|run| - 1], p);
    }
  }

  /**
   * Shutdown: from the moment the context is cancelled, in every run of the incarnation and whatever the services
   * answer, a worker makes at most BatchSize + 2 further service, dead-letter and commit calls.
   */
  lemma ShutdownBoundsCalls(env: Env, run: seq<Action>, more: seq<Action>, p: nat)
    requires EnvOk(env) && Reach(env, run).Some? && Cancelled(Reach(env, run).value) && NoRestart(more)
    requires RunFrom(env, Reach(env, run).value, more).Some?
    ensures CallsOf(more, p) <= env.cfg.batchSize + 2
  {
    EveryRun(env, run);
    hide Reach, RunFrom, Sound;
    CancelledRun(env, Reach(env, run).value, more, p);
    CallsLeftBounded(env, Reach(env, run).value, p);
  }

  lemma CallsLeftBounded(env: Env, s: State, p: nat)
    requires EnvOk(env) && Sound(env, s)
    ensures CallsLeftAt(s, p) <= env.cfg.batchSize + 2
  {
    if p < |s.parts| && s.parts[p].worker.Some? {
      assert FlowOk(env, p, s.parts[p]);
      hide WorkerOk, CallsLeft, Flow, Slice;
      MeasuresBounded(env.cfg, s.parts[p].worker.value);
    }
  }

  /**
   * On a cancelled context every interaction but an idle tick lowers a measure that is bounded by the batch size, and
   * an idle tick leaves it.
   */
  lemma CancelledWorkerDescends(env: Env, run: seq<Action>, p: nat, ev: Event)
    requires EnvOk(env) && Reach(env, run).Some? && Cancelled(Reach(env, run).value)
    requires WorkNext(env, Reach(env, run).value, p, ev).Some?
    ensures var s := Reach(env, run).value;
            var s' := WorkNext(env, s, p, ev).value;
            && p < |s.parts| == |s'.parts| && s.parts[p].worker.Some? && s'.parts[p].worker.Some?
            && var w := s.parts[p].worker.value;
               var w' := s'.parts[p].worker.value;
               && StepsLeft(w) <= 4 * env.cfg.batchSize + 13
               && (StepsLeft(w') < StepsLeft(w) || (IsIdle(w, ev) && w' == w.(ret := ToSelect, aborted := false)))
  {
    EveryRun(env, run);
    hide Reach, WorkNext, StepsLeft, Sound;
    CancelledWork(env, Reach(env, run).value, p, ev);
  }

  /** The interactions of worker p in a run from s, idle ticks apart. */
  function BusySteps(env: Env, s: State, run: seq<Action>, p: nat): nat {
    if run == [] then 0
    else
      var before := run[..|run| - 1];
      BusySteps(env, s, before, p) + (if IsBusy(RunFrom(env, s, before), run[|run| - 1], p) then 1 else 0)
  }

  predicate IsBusy(s: Option<State>, a: Action, p: nat) {
    && a.Work? && a.p == p && s.Some? && p < |s.value.parts| && s.value.parts[p].worker.Some?
    && !IsIdle(s.value.parts[p].worker.value, a.ev)
  }

  /** A worker that is still to be started counts as a fresh one. */
  function StepsLeftAt(s: State, p: nat): nat {
    StepsLeft(if p < |s.parts| && s.parts[p].worker.Some? then s.parts[p].worker.value else FreshWorker)
  }

  lemma IdleKeepsSteps(w: Worker)
    requires w.pc.Select?
    ensures StepsLeft(w.(ret := ToSelect, aborted := false)) == StepsLeft(w)
  {
  }

  lemma BusyStep(env: Env, s: State, a: Action, p: nat)
    requires EnvOk(env) && Sound(env, s) && Cancelled(s) && Next(env, s, a).Some? && !a.Restart?
    ensures StepsLeftAt(Next(env, s, a).value, p) + (if IsBusy(Some(s), a, p) then 1 else 0) <= StepsLeftAt(s, p)
  {
    if a.Work? {
      CancelledWork(env, s, a.p, a.ev);
      if s.parts[a.p].worker.value.pc.Select? {
        IdleKeepsSteps(s.parts[a.p].worker.value);
      }
      hide WorkNext, CallsLeft, Sound, StepsLeft;
    } else {
      LoopSameProgress(env, s, a);
      hide Next, StepsLeft, Sound, Frontier;
      if p < |s.parts| {
        assert SameProgress(s.parts[p], Next(env, s, a).value.parts[p]);
      }
    }
  }

  lemma {:induction false} BusyRun(env: Env, s: State, run: seq<Action>, p: nat)
    requires EnvOk(env) && Sound(env, s) && Cancelled(s) && RunFrom(env, s, run).Some? && NoRestart(run)
    ensures StepsLeftAt(RunFrom(env, s, run).value, p) + BusySteps(env, s, run, p) <= StepsLeftAt(s, p)
  {
    if run != [] {
      hide Sound, Next, StepsLeftAt, IsBusy;
      var before := run[..|run| - 1];
      BusyRun(env, s, before, p);
      RunKeepsSound(env, s, before);
      CancelledRun(env, s, before, p);
      BusyStep(env, RunFrom(env, s, before).value, run[|run| - 1], p);
    }
  }

  /**
   * Rest: from the moment the context is cancelled, in every run of the incarnation and whatever the services answer,
   * a worker takes part in at most 4 * BatchSize + 13 further interactions, ticks that find nothing to flush apart.
   */
  lemma {:induction false} ShutdownBoundsSteps(env: Env, run: seq<Action>, more: seq<Action>, p: nat)
    requires EnvOk(env) && Reach(env, run).Some? && Cancelled(Reach(env, run).value) && NoRestart(more)
    requires RunFrom(env, Reach(env, run).value, more).Some?
    ensures BusySteps(env, Reach(env, run).value, more, p) <= 4 * env.cfg.batchSize + 13
  {
    EveryRun(env, run);
    hide Reach, RunFrom, Sound;
    BusyRun(env, Reach(env, run).value, more, p);
    StepsLeftBounded(env, Reach(env, run).value, p);
  }

  lemma StepsLeftBounded(env: Env, s: State, p: nat)
    requires EnvOk(env) && Sound(env, s)
    ensures StepsLeftAt(s, p) <= 4 * env.cfg.batchSize + 13
  {
    if p < |s.parts| && s.parts[p].worker.Some? {
      assert FlowOk(env, p, s.parts[p]);
      hide WorkerOk, StepsLeft, Flow, Slice;
      MeasuresBounded(env.cfg, s.parts[p].worker.value);
    }
  }

  /** An idle tick changes nothing but a stale flag. */
  lemma IdleTick(cfg: Config, w: Worker, ev: Event)
    requires Step(cfg, w, ev).Some? && IsIdle(w, ev)
    ensures Step(cfg, w, ev).value == w.(ret := ToSelect, aborted := false)
  {
  }

  // ---------------------------------------------------------------------------------------------------------
  // Prefix on abort
  // ---------------------------------------------------------------------------------------------------------

  /** A flush that has given up on a message, and is still in progress. */
  predicate AbortedInFlush(w: Worker) {
    w.aborted && (InBulk(w.pc) || w.pc.FallbackEnter? || w.pc.FallbackLoop? || w.pc.FlushExit?
                  || (w.pc.Handle? && w.pc.caller.FromFallback?)
                  || (w.pc.HandleExit? && w.pc.caller.FromFallback?))
  }

  predicate AbortIsInert(cfg: Config, cancelled: bool, w: Worker) {
    AbortedInFlush(w) ==> cancelled && Inert(cfg, w)
  }

  predicate AbortsAreInert(env: Env, s: State) {
    forall p :: 0 <= p < |s.parts| && s.parts[p].worker.Some? ==>
                  AbortIsInert(env.cfg, Cancelled(s), s.parts[p].worker.value)
  }

  /** The flag is set by giving up only, and a stale flag does not come back into a flush. */
  lemma EntersAborted(cfg: Config, w: Worker, ev: Event)
    requires WorkerOk(cfg, w) && Step(cfg, w, ev).Some?
    requires AbortedInFlush(Step(cfg, w, ev).value) && !AbortedInFlush(w)
    ensures ev == CtxCheck(true) || (ev.WriteDlq? && ev.dlqResult.NotConfigured?)
  {
    if w.pc.Handle? {
      HandleStaysHandling(cfg, w, w.pc.h, w.pc.m, w.pc.caller, ev);
      HandleAborts(cfg, w, w.pc.h, w.pc.m, w.pc.caller, ev);
      hide HandleStep;
    } else {
      hide HandleStep, TxsOf;
    }
  }

  lemma HandleAborts(cfg: Config, w: Worker, h: HandlePc, m: Messages.Msg, caller: Caller, ev: Event)
    requires w.pc == Handle(h, m, caller) && HandleStep(cfg, w, h, m, caller, ev).Some? && HandleOk(cfg, h, m)
    requires !w.aborted && HandleStep(cfg, w, h, m, caller, ev).value.aborted
    ensures ev == CtxCheck(true) || (ev.WriteDlq? && ev.dlqResult.NotConfigured?)
  {
    HandleLeaves(cfg, w, h, m, caller, ev);
  }

  lemma WorkKeepsAborts(env: Env, s: State, p: nat, ev: Event)
    requires EnvOk(env) && Sound(env, s) && AbortsAreInert(env, s) && WorkNext(env, s, p, ev).Some?
    ensures AbortsAreInert(env, WorkNext(env, s, p, ev).value)
  {
    var w := s.parts[p].worker.value;
    var s' := WorkNext(env, s, p, ev).value;
    var w' := s'.parts[p].worker.value;
    assert FlowOk(env, p, s.parts[p]);
    assert AbortIsInert(env.cfg, Cancelled(s), w);
    assert Cancelled(s) ==> Cancelled(s');
    hide Step, Effect, CommittedAfter, WorkerOk, Slice, Flow, Inert, AbortedInFlush, HeldOk;
    if AbortedInFlush(w') {
      if AbortedInFlush(w) {
        Commits.CancelledAdmits(env, s, p, ev);
        InertStep(env.cfg, w, ev);
        RejectIsNoFlush(w');
      } else {
        EntersAborted(env.cfg, w, ev);
        GiveUpIsInert(env.cfg, w, ev);
      }
    }
  }

  lemma RejectIsNoFlush(w: Worker)
    ensures w.pc.RejectEnter? ==> !AbortedInFlush(w)
  {
  }

  lemma NextKeepsAborts(env: Env, s: State, a: Action)
    requires EnvOk(env) && Sound(env, s) && AbortsAreInert(env, s) && Next(env, s, a).Some?
    ensures AbortsAreInert(env, Next(env, s, a).value)
  {
    if a.Work? {
      WorkKeepsAborts(env, s, a.p, a.ev);
    } else if a.Restart? {
      hide WorkNext, Sound;
    } else {
      LoopSameProgress(env, s, a);
      assert !AbortedInFlush(FreshWorker);
      var s' := Next(env, s, a).value;
      hide Next, Sound, Inert, AbortedInFlush, Frontier;
      forall p | 0 <= p < |s'.parts| && s'.parts[p].worker.Some?
        ensures AbortIsInert(env.cfg, Cancelled(s'), s'.parts[p].worker.value)
      {
        assert SameProgress(s.parts[p], s'.parts[p]);
      }
    }
  }

  lemma {:induction false} EveryRunAborts(env: Env, run: seq<Action>)
    requires EnvOk(env) && Reach(env, run).Some?
    ensures AbortsAreInert(env, Reach(env, run).value)
  {
    if run != [] {
      hide Sound, Next, AbortsAreInert;
      var before := run[..|run| - 1];
      EveryRunAborts(env, before);
      EveryRun(env, before);
      NextKeepsAborts(env, Reach(env, before).value, run[|run| - 1]);
    } else {
      hide AbortIsInert;
    }
  }

  /**
   * Prefix on abort: in every run, once a flush has given up on one of its messages, it saves, dead-letters and
   * commits nothing more, although the fallback loop still visits the messages behind it.
   */
  lemma PrefixOnAbort(env: Env, run: seq<Action>, p: nat, ev: Event)
    requires EnvOk(env) && Reach(env, run).Some? && WorkNext(env, Reach(env, run).value, p, ev).Some?
    requires p < |Reach(env, run).value.parts| && Reach(env, run).value.parts[p].worker.Some?
    requires AbortedInFlush(Reach(env, run).value.parts[p].worker.value)
    ensures NoEffect(ev)
    ensures var s := Reach(env, run).value;
            var s' := WorkNext(env, s, p, ev).value;
            && s'.world == s.world && p < |s'.parts| && s'.parts[p].committed == s.parts[p].committed
  {
    EveryRun(env, run);
    EveryRunAborts(env, run);
    hide Reach;
    AbortedStep(env, Reach(env, run).value, p, ev);
  }

  lemma AbortedStep(env: Env, s: State, p: nat, ev: Event)
    requires EnvOk(env) && Sound(env, s) && AbortsAreInert(env, s) && WorkNext(env, s, p, ev).Some?
    requires p < |s.parts| && s.parts[p].worker.Some? && AbortedInFlush(s.parts[p].worker.value)
    ensures NoEffect(ev)
    ensures var s' := WorkNext(env, s, p, ev).value;
            s'.world == s.world && p < |s'.parts| && s'.parts[p].committed == s.parts[p].committed
  {
    assert FlowOk(env, p, s.parts[p]);
    assert AbortIsInert(env.cfg, Cancelled(s), s.parts[p].worker.value);
    hide Step, WorkerOk, Slice, Flow, Inert, AbortedInFlush, HeldOk, ChannelsOk;
    Commits.CancelledAdmits(env, s, p, ev);
    InertStep(env.cfg, s.parts[p].worker.value, ev);
  }
}
