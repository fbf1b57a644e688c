/**
 * At-least-once: no committed offset ever covers a message that is neither stored nor dead-lettered. The code keeps
 * this except in one window, which is characterised exactly.
 */
module NoLoss {
  import opened Base
  import Messages
  import Store
  import opened Worker
  import opened World
  import opened Pipeline
  import opened Protocol

  /** Every message of partition p below offset n is stored or dead-lettered. */
  ghost predicate SafeBelow(env: Env, world: World, p: nat, n: int)
    requires p < |env.logs|
  {
    forall o: nat :: o < n && o < |env.logs[p]| ==> Safe(env.cfg, world, MsgAt(env, p, o))
  }

  /** The property of the headline: everything committed is safe. */
  ghost predicate NothingLost(env: Env, s: State) {
    && |s.parts| == |env.logs|
    && forall p :: 0 <= p < |s.parts| ==> SafeBelow(env, s.world, p, s.parts[p].committed)
  }

  /** Everything the worker has finished with is safe: it let nothing go. */
  ghost predicate Attached(env: Env, world: World, p: nat, part: Part)
    requires p < |env.logs|
  {
    SafeBelow(env, world, p, Frontier(part))
  }

  /** A rejected message is about to be handled, although the flush before it let some message go. */
  ghost predicate InWindow(env: Env, world: World, p: nat, part: Part)
    requires p < |env.logs|
  {
    env.cfg.hasWriter && part.worker.Some? && part.worker.value.pc.RejectEnter? && !Attached(env, world, p, part)
  }

  ghost predicate NoWindow(env: Env, s: State) {
    && |s.parts| == |env.logs|
    && forall p :: 0 <= p < |s.parts| ==> !InWindow(env, s.world, p, s.parts[p])
  }

  /** On a cancelled context a worker in such a state neither writes nor commits before it idles or stops. */
  predicate Inert(cfg: Config, w: Worker) {
    match w.pc
    case Select => w.batch == []
    case Received(_) => w.batch == []
    case Stopped => true
    case FallbackLoop(_) => w.aborted
    case FlushExit => w.aborted
    case Handle(ServiceCall(_), _, FromFallback(_)) => w.aborted
    case Handle(ServiceFailed(_, _), _, FromFallback(_)) => w.aborted
    case Handle(DlqCall(_), _, FromReject) => !cfg.hasWriter
    case HandleExit(FromFallback(_)) => w.aborted
    case HandleExit(FromReject) => true
    case RejectRecheck(_) => w.aborted
    case RejectEnter(_) => !cfg.hasWriter
    case _ => false
  }

  /** What the worker is about to commit is safe. */
  ghost predicate CommitReady(cfg: Config, world: World, w: Worker) {
    forall i :: 0 <= i < |Committing(w)| ==> Safe(cfg, world, Committing(w)[i])
  }

  /** A worker lets messages go only on a cancelled context, or when it stops at its closed channel. */
  predicate Over(cancelled: bool, part: Part) {
    cancelled || (part.closed > 0 && part.worker.Some? && part.worker.value.pc.Stopped?)
  }

  /** The invariant of one partition. */
  ghost predicate SafePart(env: Env, world: World, cancelled: bool, p: nat, part: Part)
    requires p < |env.logs|
  {
    && SafeBelow(env, world, p, part.committed)
    && (|| Attached(env, world, p, part)
        || (Over(cancelled, part) && part.worker.Some? && Inert(env.cfg, part.worker.value)))
    && (part.worker.Some? ==> CommitReady(env.cfg, world, part.worker.value))
  }

  ghost predicate AllSafe(env: Env, s: State) {
    && |s.parts| == |env.logs|
    && forall p :: 0 <= p < |s.parts| ==> SafePart(env, s.world, Cancelled(s), p, s.parts[p])
  }

  // ---------------------------------------------------------------------------------------------------------
  // One step of a worker
  // ---------------------------------------------------------------------------------------------------------

  predicate AdmitsCancelled(cfg: Config, ev: Event) {
    match ev
    case CtxCheck(cancelled) => cancelled
    case BulkService(_, r) => !Applied(r)
    case Service(_, r) => !Applied(r)
    case WriteDlq(_, _, r) => r.NotConfigured? <==> !cfg.hasWriter
    case _ => true
  }

  predicate NoEffect(ev: Event) {
    && !ev.Commit?
    && (ev.WriteDlq? ==> ev.dlqResult.NotConfigured?)
    && (ev.BulkService? ==> !Applied(ev.bulkResult))
    && (ev.Service? ==> !Applied(ev.result))
  }

  lemma InertHandle(cfg: Config, w: Worker, h: HandlePc, m: Messages.Msg, caller: Caller, ev: Event)
    requires WorkerOk(cfg, w) && Inert(cfg, w) && AdmitsCancelled(cfg, ev) && w.pc == Handle(h, m, caller)
    requires HandleStep(cfg, w, h, m, caller, ev).Some?
    ensures NoEffect(ev) && Inert(cfg, HandleStep(cfg, w, h, m, caller, ev).value)
  {
  }

  /** An inert worker stays inert and has no effect, unless it goes on to a rejected message. */
  lemma InertStep(cfg: Config, w: Worker, ev: Event)
    requires Normalized(cfg) && WorkerOk(cfg, w) && Inert(cfg, w) && AdmitsCancelled(cfg, ev)
    requires Step(cfg, w, ev).Some?
    ensures NoEffect(ev)
    ensures Inert(cfg, Step(cfg, w, ev).value) || (cfg.hasWriter && Step(cfg, w, ev).value.pc.RejectEnter?)
  {
    if w.pc.Handle? {
      InertHandle(cfg, w, w.pc.h, w.pc.m, w.pc.caller, ev);
      hide HandleStep;
    } else {
      hide HandleStep;
    }
  }

  lemma GiveUpHandle(cfg: Config, w: Worker, h: HandlePc, m: Messages.Msg, caller: Caller, ev: Event)
    requires HandleStep(cfg, w, h, m, caller, ev).Some?
    requires ev == CtxCheck(true) || ev == ReceiveClosed || (ev.WriteDlq? && ev.dlqResult.NotConfigured?)
    ensures Inert(cfg, HandleStep(cfg, w, h, m, caller, ev).value)
  {
  }

  /** Seeing a cancelled context, a closed channel or an unconfigured dead-letter writer makes a worker inert. */
  lemma GiveUpIsInert(cfg: Config, w: Worker, ev: Event)
    requires Step(cfg, w, ev).Some?
    requires ev == CtxCheck(true) || ev == ReceiveClosed || (ev.WriteDlq? && ev.dlqResult.NotConfigured?)
    ensures Inert(cfg, Step(cfg, w, ev).value)
  {
    hide HandleStep, TxsOf;
    if w.pc.Handle? {
      GiveUpHandle(cfg, w, w.pc.h, w.pc.m, w.pc.caller, ev);
    }
  }

  lemma HandleCommitReady(cfg: Config, world: World, w: Worker, h: HandlePc, m: Messages.Msg, caller: Caller, ev: Event)
    requires WorkerOk(cfg, w) && w.pc == Handle(h, m, caller) && HandleStep(cfg, w, h, m, caller, ev).Some?
    requires CommitReady(cfg, world, w)
    ensures CommitReady(cfg, Effect(world, ev), HandleStep(cfg, w, h, m, caller, ev).value)
  {
    var w' := HandleStep(cfg, w, h, m, caller, ev).value;
    if w'.pc.Handle? && w'.pc.h.CommitCall? && h.DlqCall? {
      assert Effect(world, ev).dlq[|world.dlq|] == Letter(m, ev.reason);
    } else if h.CommitFailed? || h.CommitCall? {
      assert Committing(w) == [m];
    }
  }

  lemma BulkCommitReady(cfg: Config, world: World, w: Worker, ev: Event)
    requires WorkerOk(cfg, w) && InBulk(w.pc) && BulkStep(cfg, w, ev).Some?
    requires CommitReady(cfg, world, w)
    ensures CommitReady(cfg, Effect(world, ev), BulkStep(cfg, w, ev).value)
  {
    var w' := BulkStep(cfg, w, ev).value;
    if w.pc.BulkCall? && w'.pc.BulkCommit? {
      forall i | 0 <= i < |w.batch|
        ensures Safe(cfg, Effect(world, ev), w.batch[i])
      {
        Store.SaveAllRows(world.table, ev.txs, Store.RowOf(ev.txs[i]));
      }
      assert Committing(w') == w.batch;
    } else {
      assert Committing(w') == Committing(w) || Committing(w') == [];
      assert ev.BulkService? || Effect(world, ev) == world;
    }
  }

  /** The worker reaches a commit only after the service or the dead-letter topic accepted every message of it. */
  lemma StepCommitReady(cfg: Config, world: World, w: Worker, ev: Event)
    requires Normalized(cfg) && WorkerOk(cfg, w) && Step(cfg, w, ev).Some? && CommitReady(cfg, world, w)
    ensures CommitReady(cfg, Effect(world, ev), Step(cfg, w, ev).value)
  {
    if w.pc.Handle? {
      HandleCommitReady(cfg, world, w, w.pc.h, w.pc.m, w.pc.caller, ev);
      hide HandleStep, Effect, CommitReady;
    } else if InBulk(w.pc) {
      BulkCommitReady(cfg, world, w, ev);
      hide BulkStep, Effect, CommitReady;
    } else {
      hide HandleStep, BulkStep, Effect;
    }
  }

  lemma SafeBelowStays(env: Env, world: World, world': World, p: nat, n: int)
    requires p < |env.logs| && Grows(world, world') && SafeBelow(env, world, p, n)
    ensures SafeBelow(env, world', p, n)
  {
    forall o: nat | o < n && o < |env.logs[p]|
      ensures Safe(env.cfg, world', MsgAt(env, p, o))
    {
      SafeStays(env.cfg, world, world', MsgAt(env, p, o));
    }
  }

  /** The other partitions only ever gain from a worker's effects. */
  lemma SafePartStays(env: Env, world: World, world': World, cancelled: bool, cancelled': bool, p: nat, part: Part)
    requires p < |env.logs| && Grows(world, world') && (cancelled ==> cancelled')
    requires SafePart(env, world, cancelled, p, part)
    ensures SafePart(env, world', cancelled', p, part)
  {
    hide SafeBelow, Inert, Frontier, Committing;
    SafeBelowStays(env, world, world', p, part.committed);
    if Attached(env, world, p, part) {
      SafeBelowStays(env, world, world', p, Frontier(part));
    }
    if part.worker.Some? {
      var ms := Committing(part.worker.value);
      forall i | 0 <= i < |ms|
        ensures Safe(env.cfg, world', ms[i])
      {
        SafeStays(env.cfg, world, world', ms[i]);
      }
    }
  }

  /** When everything below the frontier is safe, so is what the worker may commit. */
  lemma CommittingIsSafe(env: Env, world: World, p: nat, part: Part)
    requires EnvOk(env) && p < |env.logs| && FlowOk(env, p, part) && part.worker.Some?
    requires Attached(env, world, p, part) && CommitReady(env.cfg, world, part.worker.value)
    ensures SafeBelow(env, world, p, Frontier(part) + |Committing(part.worker.value)|)
  {
    CommittingIsFlowPrefix(env, p, part);
    hide Frontier, Committing, FlowOk, Safe;
    var f := Frontier(part);
    var ms := Committing(part.worker.value);
    forall o: nat | o < f + |ms| && o < |env.logs[p]|
      ensures Safe(env.cfg, world, MsgAt(env, p, o))
    {
      if o >= f {
        assert ms[o - f] == MsgAt(env, p, f + (o - f));
      }
    }
  }

  /** The step of a worker that has let something go. */
  lemma InertWorkSafe(env: Env, s: State, p: nat, ev: Event)
    requires EnvOk(env) && Sound(env, s) && WorkNext(env, s, p, ev).Some?
    requires SafePart(env, s.world, Cancelled(s), p, s.parts[p]) && !Attached(env, s.world, p, s.parts[p])
    ensures var s' := WorkNext(env, s, p, ev).value;
            SafePart(env, s'.world, Cancelled(s'), p, s'.parts[p]) || InWindow(env, s'.world, p, s'.parts[p])
  {
    var part := s.parts[p];
    var w := part.worker.value;
    var s' := WorkNext(env, s, p, ev).value;
    assert FlowOk(env, p, part);
    hide Step, WorkerOk, Inert, SafeBelow, CommitReady, FlowOk, Frontier;
    StoppedIsStopped(env.cfg, w, ev);
    InertStep(env.cfg, w, ev);
    StepCommitReady(env.cfg, s.world, w, ev);
    assert s'.world == s.world && s'.parts[p].committed == part.committed;
  }

  /** The step of a worker that has let nothing go so far. */
  lemma AttachedWorkSafe(env: Env, s: State, p: nat, ev: Event)
    requires EnvOk(env) && Sound(env, s) && WorkNext(env, s, p, ev).Some?
    requires SafePart(env, s.world, Cancelled(s), p, s.parts[p]) && Attached(env, s.world, p, s.parts[p])
    ensures var s' := WorkNext(env, s, p, ev).value;
            SafePart(env, s'.world, Cancelled(s'), p, s'.parts[p])
  {
    var part := s.parts[p];
    var w := part.worker.value;
    var s' := WorkNext(env, s, p, ev).value;
    assert FlowOk(env, p, part);
    EffectGrows(s.world, ev);
    SafeBelowStays(env, s.world, s'.world, p, part.committed);
    SafeBelowStays(env, s.world, s'.world, p, Frontier(part));
    CommittingIsSafe(env, s.world, p, part);
    SafeBelowStays(env, s.world, s'.world, p, Frontier(part) + |Committing(w)|);
    StepCommitReady(env.cfg, s.world, w, ev);
    CommitWithinFlow(env, s, p, ev);
    var n := WorkFlow(env, s, p, ev);
    hide Step, WorkerOk, Inert, SafeBelow, CommitReady, Flow, Slice, Committing, Effect, CommittedAfter;
    assert Frontier(s'.parts[p]) == Frontier(part) + n;
    if n > 0 && !(ev.Commit? && ev.commitResult.Done?) {
      GiveUpIsInert(env.cfg, w, ev);
      GiveUpIsOver(env, s, p, ev);
    }
  }

  /** Giving up happens on a cancelled context, or at a closed channel. */
  lemma GiveUpIsOver(env: Env, s: State, p: nat, ev: Event)
    requires ChannelsOk(s) && WorkNext(env, s, p, ev).Some?
    requires ev == CtxCheck(true) || ev == ReceiveClosed || (ev.WriteDlq? && ev.dlqResult.NotConfigured?)
    ensures p < |s.parts| == |WorkNext(env, s, p, ev).value.parts|
    ensures Over(Cancelled(WorkNext(env, s, p, ev).value), WorkNext(env, s, p, ev).value.parts[p])
  {
    if ev.ReceiveClosed? {
      ClosedStops(env.cfg, s.parts[p].worker.value);
    }
    hide Step, Effect, CommittedAfter;
  }

  lemma ClosedStops(cfg: Config, w: Worker)
    ensures Step(cfg, w, ReceiveClosed).Some? ==> Step(cfg, w, ReceiveClosed).value.pc.Stopped?
  {
    hide HandleStep, TxsOf;
    if w.pc.Handle? && HandleStep(cfg, w, w.pc.h, w.pc.m, w.pc.caller, ReceiveClosed).Some? {
      HandleStaysHandling(cfg, w, w.pc.h, w.pc.m, w.pc.caller, ReceiveClosed);
    }
  }

  lemma StoppedIsStopped(cfg: Config, w: Worker, ev: Event)
    requires Step(cfg, w, ev).Some?
    ensures !w.pc.Stopped?
  {
  }

  lemma WorkKeepsSafe(env: Env, s: State, p: nat, ev: Event)
    requires EnvOk(env) && Sound(env, s) && AllSafe(env, s) && WorkNext(env, s, p, ev).Some?
    requires !InWindow(env, WorkNext(env, s, p, ev).value.world, p, WorkNext(env, s, p, ev).value.parts[p])
    ensures AllSafe(env, WorkNext(env, s, p, ev).value)
  {
    var s' := WorkNext(env, s, p, ev).value;
    hide Step, SafePart, InWindow, Attached, OrderOk, ChannelsOk, InFlightOk, CommittedAfter, Effect;
    assert SafePart(env, s.world, Cancelled(s), p, s.parts[p]);
    if Attached(env, s.world, p, s.parts[p]) {
      AttachedWorkSafe(env, s, p, ev);
    } else {
      InertWorkSafe(env, s, p, ev);
    }
    EffectGrows(s.world, ev);
    forall q | 0 <= q < |s'.parts| && q != p
      ensures SafePart(env, s'.world, Cancelled(s'), q, s'.parts[q])
    {
      SafePartStays(env, s.world, s'.world, Cancelled(s), Cancelled(s'), q, s.parts[q]);
    }
  }

  // ---------------------------------------------------------------------------------------------------------
  // The other actions
  // ---------------------------------------------------------------------------------------------------------

  /** Fetching, delivering and closing do not move the frontier, nor what the worker is about to do. */
  predicate SameProgress(part: Part, part': Part) {
    && part'.committed == part.committed && Frontier(part') == Frontier(part) && part.closed <= part'.closed
    && (part'.worker == part.worker || (part.worker.None? && part'.worker == Some(FreshWorker)))
  }

  lemma SameProgressStaysSafe(env: Env, world: World, cancelled: bool, p: nat, part: Part, part': Part)
    requires p < |env.logs| && SameProgress(part, part') && SafePart(env, world, cancelled, p, part)
    ensures SafePart(env, world, cancelled, p, part')
  {
    assert Committing(FreshWorker) == [];
    hide SafeBelow, Inert, Committing, Frontier;
  }

  lemma FetchSameProgress(env: Env, s: State, p: nat)
    requires FetchNext(env, s, p).Some? && OrderOk(env, s)
    ensures p < |s.parts| == |FetchNext(env, s, p).value.parts|
    ensures SameProgress(s.parts[p], FetchNext(env, s, p).value.parts[p])
  {
    assert Unfinished(FreshWorker) == [];
    hide Unfinished, FlowOk, HeldOk;
  }

  lemma LoopSameProgress(env: Env, s: State, a: Action)
    requires EnvOk(env) && Sound(env, s) && Next(env, s, a).Some? && !a.Work? && !a.Restart?
    ensures var s' := Next(env, s, a).value;
            && s'.world == s.world && |s'.parts| == |s.parts| && (Cancelled(s) ==> Cancelled(s'))
            && forall p :: 0 <= p < |s.parts| ==> SameProgress(s.parts[p], s'.parts[p])
  {
    Reflexive(s.parts);
    hide WorkNext, OrderOk, InFlightOk;
    if a.Fetch? {
      FetchSameProgress(env, s, a.p);
      hide SameProgress, ChannelsOk;
    } else if a.Send? {
      SendSameProgress(s);
      hide SameProgress, FetchNext;
    } else {
      CloseSameProgress(s, if a.Close? then a.p else 0);
      hide SameProgress, FetchNext, SendNext;
    }
  }

  lemma SendSameProgress(s: State)
    requires ChannelsOk(s) && SendNext(s).Some?
    ensures var s' := SendNext(s).value;
            && s.loop.Holding? && s.loop.m.partition < |s.parts| == |s'.parts|
            && SameProgress(s.parts[s.loop.m.partition], s'.parts[s.loop.m.partition])
  {
    hide Unfinished;
  }

  lemma CloseSameProgress(s: State, p: nat)
    ensures CloseNext(s, p).Some? ==>
              p < |s.parts| == |CloseNext(s, p).value.parts| && SameProgress(s.parts[p], CloseNext(s, p).value.parts[p])
  {
    hide Unfinished;
  }

  lemma Reflexive(parts: seq<Part>)
    ensures forall q :: 0 <= q < |parts| ==> SameProgress(parts[q], parts[q])
  {
  }

  lemma RestartIsSafe(env: Env, s: State)
    requires AllSafe(env, s)
    ensures AllSafe(env, RestartNext(s))
  {
    var s' := RestartNext(s);
    forall p | 0 <= p < |s'.parts|
      ensures SafePart(env, s'.world, Cancelled(s'), p, s'.parts[p])
    {
      assert SafePart(env, s.world, Cancelled(s), p, s.parts[p]);
      assert Frontier(s'.parts[p]) == s.parts[p].committed;
    }
  }

  lemma NextKeepsSafe(env: Env, s: State, a: Action)
    requires EnvOk(env) && Sound(env, s) && AllSafe(env, s) && Next(env, s, a).Some?
    requires NoWindow(env, Next(env, s, a).value)
    ensures AllSafe(env, Next(env, s, a).value)
  {
    hide WorkNext, Sound, SafePart, InWindow, SameProgress, RestartNext;
    var s' := Next(env, s, a).value;
    if a.Work? {
      assert !InWindow(env, s'.world, a.p, s'.parts[a.p]) by { WorkPartition(env, s, a.p, a.ev); }
      WorkKeepsSafe(env, s, a.p, a.ev);
    } else if a.Restart? {
      RestartIsSafe(env, s);
    } else {
      LoopSameProgress(env, s, a);
      forall p | 0 <= p < |s'.parts|
        ensures SafePart(env, s'.world, Cancelled(s'), p, s'.parts[p])
      {
        SameProgressStaysSafe(env, s.world, Cancelled(s), p, s.parts[p], s'.parts[p]);
        SafePartStays(env, s.world, s'.world, Cancelled(s), Cancelled(s'), p, s'.parts[p]);
      }
    }
  }

  lemma WorkPartition(env: Env, s: State, p: nat, ev: Event)
    requires WorkNext(env, s, p, ev).Some?
    ensures p < |s.parts| == |WorkNext(env, s, p, ev).value.parts|
  {
    hide Step, Effect, CommittedAfter;
  }

  // ---------------------------------------------------------------------------------------------------------
  // Runs
  // ---------------------------------------------------------------------------------------------------------

  /** No state after the first one has a rejected message handled past a gap. */
  ghost predicate StaysOutOfWindow(env: Env, s: State, run: seq<Action>) {
    run != [] ==>
      && StaysOutOfWindow(env, s, run[..|run| - 1])
      && (RunFrom(env, s, run).Some? ==> NoWindow(env, RunFrom(env, s, run).value))
  }

  lemma InitAllSafe(env: Env)
    ensures AllSafe(env, Init(env))
  {
    forall p | 0 <= p < |env.logs|
      ensures SafePart(env, Init(env).world, false, p, FreshPart(0))
    {
      assert Frontier(FreshPart(0)) == 0;
    }
  }

  lemma {:induction false} RunKeepsSafe(env: Env, s: State, run: seq<Action>)
    requires EnvOk(env) && Sound(env, s) && AllSafe(env, s)
    requires StaysOutOfWindow(env, s, run) && RunFrom(env, s, run).Some?
    ensures AllSafe(env, RunFrom(env, s, run).value)
  {
    if run != [] {
      hide Sound, AllSafe, Next, NoWindow;
      RunKeepsSafe(env, s, run[..|run| - 1]);
      RunKeepsSound(env, s, run[..|run| - 1]);
      NextKeepsSafe(env, RunFrom(env, s, run[..|run| - 1]).value, run[|run| - 1]);
    }
  }

  lemma SafeMeansNothingLost(env: Env, s: State)
    requires AllSafe(env, s)
    ensures NothingLost(env, s)
  {
    hide SafeBelow;
    forall p | 0 <= p < |s.parts|
      ensures SafeBelow(env, s.world, p, s.parts[p].committed)
    {
      assert SafePart(env, s.world, Cancelled(s), p, s.parts[p]);
    }
  }

  /**
   * No loss: in every run, over any number of partitions, interleavings, failures that may have applied, shutdowns
   * and restarts, that never enters the window, every offset below a partition's committed offset is stored or
   * dead-lettered.
   */
  lemma {:induction false} NoLossOutsideWindow(env: Env, run: seq<Action>)
    requires EnvOk(env) && Reach(env, run).Some? && StaysOutOfWindow(env, Init(env), run)
    ensures NothingLost(env, Reach(env, run).value)
  {
    hide Sound, AllSafe, Init, RunFrom, StaysOutOfWindow, NothingLost;
    InitSound(env);
    InitAllSafe(env);
    RunKeepsSafe(env, Init(env), run);
    SafeMeansNothingLost(env, Reach(env, run).value);
  }
}
