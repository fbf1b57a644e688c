/**
 * How committed offsets move: with the first unfinished message, but for a commit in progress that was applied behind
 * an error; and, when commits fail cleanly, contiguously, except through the same window.
 */
module Commits {
  import Messages
  import opened Worker
  import opened World
  import opened Pipeline
  import opened Protocol
  import opened NoLoss
  import Window

  /** The worker handles a rejected message after an aborted flush. */
  predicate PastAbort(w: Worker) {
    w.aborted && (w.pc.RejectEnter? || (w.pc.Handle? && w.pc.caller.FromReject?))
  }

  /** The flag still speaks about the flush in progress, or about the one that brought the worker here. */
  predicate AbortIsCurrent(w: Worker) {
    w.aborted && !w.pc.Select? && !w.pc.Received? && !w.pc.Stopped? && w.pc != HandleExit(FromReject)
  }

  predicate Loose(cfg: Config, w: Worker) {
    Inert(cfg, w) || PastAbort(w)
  }

  /** The committed offset is the frontier, or the worker has let something go. */
  predicate TightPart(cfg: Config, cancelled: bool, part: Part) {
    && (|| part.committed == Frontier(part)
        || (Over(cancelled, part) && part.worker.Some? && Loose(cfg, part.worker.value)))
    && (part.worker.Some? && AbortIsCurrent(part.worker.value) ==> part.committed < Frontier(part))
  }

  ghost predicate AllTight(env: Env, s: State) {
    forall p :: 0 <= p < |s.parts| ==> TightPart(env.cfg, Cancelled(s), s.parts[p])
  }

  /** A commit that fails has not moved the offset. */
  predicate CleanCommit(ev: Event) {
    ev.Commit? && ev.commitResult.Failed? ==> !ev.commitResult.applied
  }

  predicate CleanCommits(run: seq<Action>) {
    forall i :: 0 <= i < |run| && run[i].Work? ==> CleanCommit(run[i].ev)
  }

  lemma AbortDropsHandle(cfg: Config, w: Worker, h: HandlePc, m: Messages.Msg, caller: Caller, ev: Event)
    requires WorkerOk(cfg, w) && w.pc == Handle(h, m, caller) && HandleStep(cfg, w, h, m, caller, ev).Some?
    requires !w.aborted && HandleStep(cfg, w, h, m, caller, ev).value.aborted
    ensures caller.FromFallback? && HandleStep(cfg, w, h, m, caller, ev).value.pc == HandleExit(caller)
  {
  }

  /** Outside handleMessage only the two bulk phases abort a flush. */
  lemma AbortDropsBulk(cfg: Config, w: Worker, ev: Event)
    requires !w.pc.Handle? && Step(cfg, w, ev).Some? && !w.aborted && Step(cfg, w, ev).value.aborted
    ensures (w.pc.BulkFailed? || w.pc.BulkCommitFailed?) && !ev.Commit? && !ev.Receive?
    ensures Step(cfg, w, ev).value == w.(pc := FlushExit, aborted := true)
  {
    hide HandleStep, TxsOf;
  }

  /** A flush becomes aborted by letting at least one message go. */
  lemma AbortDrops(cfg: Config, w: Worker, ev: Event)
    requires Normalized(cfg) && WorkerOk(cfg, w) && Step(cfg, w, ev).Some?
    requires !w.aborted && Step(cfg, w, ev).value.aborted
    ensures |Unfinished(Step(cfg, w, ev).value)| < |Unfinished(w)| && !ev.Commit? && !ev.Receive?
  {
    if w.pc.Handle? {
      AbortDropsHandle(cfg, w, w.pc.h, w.pc.m, w.pc.caller, ev);
      HandleStaysHandling(cfg, w, w.pc.h, w.pc.m, w.pc.caller, ev);
      GiveUpNoCommit(cfg, w, w.pc.h, w.pc.m, w.pc.caller, ev);
      hide HandleStep;
    } else {
      AbortDropsBulk(cfg, w, ev);
      hide Step;
    }
  }

  lemma GiveUpNoCommit(cfg: Config, w: Worker, h: HandlePc, m: Messages.Msg, caller: Caller, ev: Event)
    requires w.pc == Handle(h, m, caller) && HandleStep(cfg, w, h, m, caller, ev).Some?
    requires !w.aborted && HandleStep(cfg, w, h, m, caller, ev).value.aborted
    ensures !ev.Commit?
  {
  }

  lemma PastAbortHandle(cfg: Config, w: Worker, h: HandlePc, m: Messages.Msg, caller: Caller, ev: Event)
    requires w.pc == Handle(h, m, caller) && PastAbort(w) && HandleStep(cfg, w, h, m, caller, ev).Some?
    ensures Loose(cfg, HandleStep(cfg, w, h, m, caller, ev).value)
  {
  }

  /** Once loose on a cancelled context, always loose, and without commits unless the worker is past an abort. */
  lemma LooseStep(cfg: Config, w: Worker, ev: Event)
    requires Normalized(cfg) && WorkerOk(cfg, w) && Loose(cfg, w) && AdmitsCancelled(cfg, ev)
    requires Step(cfg, w, ev).Some?
    ensures Loose(cfg, Step(cfg, w, ev).value)
    ensures ev.Commit? ==> PastAbort(w)
  {
    if Inert(cfg, w) {
      InertStep(cfg, w, ev);
      if Step(cfg, w, ev).value.pc.RejectEnter? {
        Window.EntersReject(cfg, w, ev);
        hide Step;
      } else {
        hide Step;
      }
    } else if w.pc.Handle? {
      PastAbortHandle(cfg, w, w.pc.h, w.pc.m, w.pc.caller, ev);
      hide HandleStep;
    } else {
      hide HandleStep;
    }
  }

  /** A flag left over from an earlier flush does not become current again. */
  lemma StaleStaysStale(cfg: Config, w: Worker, ev: Event)
    requires Step(cfg, w, ev).Some? && !AbortIsCurrent(w) && w.aborted
    ensures !AbortIsCurrent(Step(cfg, w, ev).value)
  {
    hide HandleStep, BulkStep;
  }

  lemma InertUnabortedStays(cfg: Config, w: Worker, ev: Event)
    requires Normalized(cfg) && WorkerOk(cfg, w) && Step(cfg, w, ev).Some? && Loose(cfg, w) && !w.aborted
    ensures !Step(cfg, w, ev).value.aborted
  {
    if Step(cfg, w, ev).value.aborted {
      if w.pc.Handle? {
        AbortDropsHandle(cfg, w, w.pc.h, w.pc.m, w.pc.caller, ev);
        hide HandleStep;
      } else {
        AbortDropsBulk(cfg, w, ev);
        hide Step;
      }
    }
  }

  /** The flag after a step, when the committed offset was the frontier or the worker was loose. */
  lemma AbortAfter(cfg: Config, w: Worker, ev: Event)
    requires Normalized(cfg) && WorkerOk(cfg, w) && Step(cfg, w, ev).Some?
    ensures AbortIsCurrent(Step(cfg, w, ev).value) && !AbortIsCurrent(w) ==>
              && !w.aborted && !Loose(cfg, w) && !ev.Commit? && !ev.Receive?
              && |Unfinished(Step(cfg, w, ev).value)| < |Unfinished(w)|
  {
    hide Step, Inert, WorkerOk, Unfinished;
    if AbortIsCurrent(Step(cfg, w, ev).value) && !AbortIsCurrent(w) {
      if w.aborted {
        StaleStaysStale(cfg, w, ev);
      } else {
        AbortDrops(cfg, w, ev);
        if Loose(cfg, w) {
          InertUnabortedStays(cfg, w, ev);
        }
      }
    }
  }

  /** A successful commit of a rejected message past an abort ends the rejection branch. */
  lemma CommitEndsReject(cfg: Config, w: Worker, ev: Event)
    requires Step(cfg, w, ev).Some? && PastAbort(w) && ev.Commit? && ev.commitResult.Done?
    ensures !AbortIsCurrent(Step(cfg, w, ev).value)
  {
  }

  /** The numbers behind a worker's step: how far the frontier and the committed offset move. */
  lemma Progress(env: Env, s: State, p: nat, ev: Event) returns (n: nat)
    requires EnvOk(env) && Sound(env, s) && WorkNext(env, s, p, ev).Some?
    ensures var s' := WorkNext(env, s, p, ev).value;
            var ms := Committing(s.parts[p].worker.value);
            && Frontier(s'.parts[p]) == Frontier(s.parts[p]) + n
            && s'.parts[p].committed
               == (if ev.Commit? && ms != [] && (ev.commitResult.Done? || ev.commitResult.applied) then
                     Frontier(s.parts[p]) + |ms|
                   else s.parts[p].committed)
            && (!ev.Receive? ==>
                  |Unfinished(s'.parts[p].worker.value)| == |Unfinished(s.parts[p].worker.value)| - n)
    ensures Justified(s.parts[p].worker.value, ev, n)
  {
    assert FlowOk(env, p, s.parts[p]);
    n := WorkFlow(env, s, p, ev);
    CommitWithinFlow(env, s, p, ev);
    hide Step, WorkerOk, Slice, Effect, Unfinished, FlowOk, ChannelsOk, Committing;
  }

  /** When failed commits have no effect, a commit moves the committed offset to the new frontier, or not at all. */
  lemma Advance(env: Env, s: State, p: nat, ev: Event) returns (n: nat)
    requires EnvOk(env) && Sound(env, s) && WorkNext(env, s, p, ev).Some? && CleanCommit(ev)
    ensures var s' := WorkNext(env, s, p, ev).value;
            && Frontier(s'.parts[p]) == Frontier(s.parts[p]) + n
            && s'.parts[p].committed
               == (if ev.Commit? && ev.commitResult.Done? && ev.msgs != [] then Frontier(s'.parts[p])
                   else s.parts[p].committed)
            && (!ev.Receive? ==>
                  |Unfinished(s'.parts[p].worker.value)| == |Unfinished(s.parts[p].worker.value)| - n)
    ensures Justified(s.parts[p].worker.value, ev, n)
  {
    n := Progress(env, s, p, ev);
    hide WorkNext, Frontier, Sound, Unfinished, Committing;
  }

  /** Dropping without committing is giving up, and leaves the worker inert. */
  lemma DropIsInert(env: Env, s: State, p: nat, ev: Event, n: nat)
    requires EnvOk(env) && Sound(env, s) && WorkNext(env, s, p, ev).Some?
    requires n > 0 && Justified(s.parts[p].worker.value, ev, n) && !(ev.Commit? && ev.commitResult.Done?)
    ensures Over(Cancelled(WorkNext(env, s, p, ev).value), WorkNext(env, s, p, ev).value.parts[p])
    ensures Inert(env.cfg, WorkNext(env, s, p, ev).value.parts[p].worker.value)
  {
    hide Step, Effect, Inert, OrderOk, CommittedAfter;
    GiveUpIsOver(env, s, p, ev);
    GiveUpIsInert(env.cfg, s.parts[p].worker.value, ev);
  }

  lemma CancelledAdmits(env: Env, s: State, p: nat, ev: Event)
    requires Cancelled(s) && WorkNext(env, s, p, ev).Some?
    ensures AdmitsCancelled(env.cfg, ev)
  {
    hide Step, Effect, CommittedAfter;
  }

  lemma WorkKeepsTight(env: Env, s: State, p: nat, ev: Event)
    requires EnvOk(env) && Sound(env, s) && WorkNext(env, s, p, ev).Some? && CleanCommit(ev)
    requires TightPart(env.cfg, Cancelled(s), s.parts[p])
    ensures TightPart(env.cfg, Cancelled(WorkNext(env, s, p, ev).value), WorkNext(env, s, p, ev).value.parts[p])
  {
    hide Step, WorkNext, WorkerOk, Inert, AbortIsCurrent, Unfinished, Sound, Frontier, Committing, PastAbort, OrderOk;
    WorkShape(env, s, p, ev);
    var part := s.parts[p];
    var w := part.worker.value;
    var n := Advance(env, s, p, ev);
    SoundWorker(env, s, p);
    AbortAfter(env.cfg, w, ev);
    if part.committed == Frontier(part) {
      if n > 0 && !(ev.Commit? && ev.commitResult.Done?) {
        DropIsInert(env, s, p, ev, n);
      }
    } else {
      StoppedIsStopped(env.cfg, w, ev);
      CancelledAdmits(env, s, p, ev);
      LooseStep(env.cfg, w, ev);
      if ev.Commit? && ev.commitResult.Done? {
        CommitEndsReject(env.cfg, w, ev);
      }
    }
  }

  // ---------------------------------------------------------------------------------------------------------
  // Runs
  // ---------------------------------------------------------------------------------------------------------

  lemma NextKeepsTight(env: Env, s: State, a: Action)
    requires EnvOk(env) && Sound(env, s) && AllTight(env, s) && Next(env, s, a).Some?
    requires a.Work? ==> CleanCommit(a.ev)
    ensures AllTight(env, Next(env, s, a).value)
  {
    var s' := Next(env, s, a).value;
    if a.Work? {
      WorkKeepsTight(env, s, a.p, a.ev);
      hide Step, Effect, CommittedAfter, Sound, TightPart;
      forall q | 0 <= q < |s'.parts| && q != a.p
        ensures TightPart(env.cfg, Cancelled(s'), s'.parts[q])
      {
        TightStays(env.cfg, Cancelled(s), Cancelled(s'), s.parts[q], s.parts[q]);
      }
    } else if a.Restart? {
      hide WorkNext, Sound;
    } else {
      LoopSameProgress(env, s, a);
      hide Next, Sound, TightPart, SameProgress;
      forall q | 0 <= q < |s'.parts|
        ensures TightPart(env.cfg, Cancelled(s'), s'.parts[q])
      {
        TightStays(env.cfg, Cancelled(s), Cancelled(s'), s.parts[q], s'.parts[q]);
      }
    }
  }

  lemma TightStays(cfg: Config, cancelled: bool, cancelled': bool, part: Part, part': Part)
    requires TightPart(cfg, cancelled, part) && (cancelled ==> cancelled')
    requires SameProgress(part, part') || part' == part
    ensures TightPart(cfg, cancelled', part')
  {
    assert !AbortIsCurrent(FreshWorker);
    hide Loose, AbortIsCurrent, Frontier;
  }

  lemma {:induction false} CleanRunTight(env: Env, run: seq<Action>)
    requires EnvOk(env) && Reach(env, run).Some? && CleanCommits(run)
    ensures AllTight(env, Reach(env, run).value)
  {
    if run != [] {
      hide Sound, AllTight, Next;
      var before := run[..|run| - 1];
      CleanRunTight(env, before);
      EveryRun(env, before);
      NextKeepsTight(env, Reach(env, before).value, run[|run| - 1]);
    }
  }

  /** A worker that commits is at a commit, and has something to commit. */
  lemma CommitPcs(cfg: Config, w: Worker, ev: Event)
    requires Normalized(cfg) && WorkerOk(cfg, w) && Step(cfg, w, ev).Some? && ev.Commit?
    ensures ev.msgs != [] && ev.msgs == Committing(w)
    ensures !Inert(cfg, w) && (PastAbort(w) ==> AbortIsCurrent(w))
  {
    hide TxsOf;
  }

  /**
   * Contiguous commits: in a run whose failed commits have no effect, a successful commit covers exactly the messages
   * from the committed offset on, and so raises it without a gap or an overlap, if and only if it is not the commit
   * of a rejected message past an aborted flush.
   */
  lemma ContiguousCommits(env: Env, run: seq<Action>, p: nat, msgs: seq<Messages.Msg>)
    requires EnvOk(env) && Reach(env, run).Some? && CleanCommits(run)
    requires WorkNext(env, Reach(env, run).value, p, Commit(msgs, Done)).Some?
    ensures var s := Reach(env, run).value;
            var s' := WorkNext(env, s, p, Commit(msgs, Done)).value;
            && p < |s.parts| == |s'.parts| == |env.logs| && s.parts[p].worker.Some?
            && s.parts[p].committed < s'.parts[p].committed <= |env.logs[p]|
            && (msgs == Slice(env, p, s.parts[p].committed, s'.parts[p].committed)
                <==> !PastAbort(s.parts[p].worker.value))
  {
    EveryRun(env, run);
    CleanRunTight(env, run);
    var s := Reach(env, run).value;
    hide Reach;
    WorkPartition(env, s, p, Commit(msgs, Done));
    CommitIsContiguous(env, s, p, msgs);
  }

  lemma CommitIsContiguous(env: Env, s: State, p: nat, msgs: seq<Messages.Msg>)
    requires EnvOk(env) && Sound(env, s) && WorkNext(env, s, p, Commit(msgs, Done)).Some?
    requires p < |s.parts| && TightPart(env.cfg, Cancelled(s), s.parts[p])
    ensures var s' := WorkNext(env, s, p, Commit(msgs, Done)).value;
            && p < |s'.parts| && s.parts[p].worker.Some?
            && s.parts[p].committed < s'.parts[p].committed <= |env.logs[p]|
            && (msgs == Slice(env, p, s.parts[p].committed, s'.parts[p].committed)
                <==> !PastAbort(s.parts[p].worker.value))
  {
    var part := s.parts[p];
    var ev := Commit(msgs, Done);
    var f := Frontier(part);
    assert FlowOk(env, p, part);
    CommitPcs(env.cfg, part.worker.value, ev);
    CommittingIsFlowPrefix(env, p, part);
    SliceOf(env, p, f, msgs);
    var n := Advance(env, s, p, ev);
    hide Step, WorkerOk, Effect, Inert, AbortIsCurrent, PastAbort, CommittedAfter, Flow, Frontier, Committing,
         Slice, FlowOk;
    assert msgs == Slice(env, p, f, f + |msgs|) && n == |msgs| > 0;
    SameEnd(env, p, part.committed, f, f + |msgs|);
  }

  lemma SliceOf(env: Env, p: nat, f: nat, msgs: seq<Messages.Msg>)
    requires p < |env.logs| && f + |msgs| <= |env.logs[p]|
    requires forall i :: 0 <= i < |msgs| ==> msgs[i] == MsgAt(env, p, f + i)
    ensures msgs == Slice(env, p, f, f + |msgs|)
  {
  }

  /** Slices with the same end are the same only if they start at the same offset. */
  lemma SameEnd(env: Env, p: nat, a: nat, b: nat, end: nat)
    requires p < |env.logs| && a <= end <= |env.logs[p]| && b <= end
    ensures Slice(env, p, b, end) == Slice(env, p, a, end) <==> a == b
  {
    assert |Slice(env, p, b, end)| == end - b && |Slice(env, p, a, end)| == end - a;
  }

  // ---------------------------------------------------------------------------------------------------------
  // Conservation, whatever becomes of failed commits
  // ---------------------------------------------------------------------------------------------------------

  /**
   * The committed offset is the frontier; or a commit failed after it was applied, is being retried, and the committed
   * offset is past its messages; or the worker may have let something go.
   */
  predicate NearFrontier(cancelled: bool, part: Part) {
    || Over(cancelled, part)
    || part.committed == Frontier(part)
    || (part.worker.Some? && part.committed == Frontier(part) + |Committing(part.worker.value)|)
  }

  ghost predicate AllNear(s: State) {
    forall p :: 0 <= p < |s.parts| ==> NearFrontier(Cancelled(s), s.parts[p])
  }

  /** While messages are being committed nothing happens but that they are committed or given up. */
  lemma CommittingStays(cfg: Config, w: Worker, ev: Event)
    requires Step(cfg, w, ev).Some? && Committing(w) != []
    ensures || ev == CtxCheck(true) || (ev.Commit? && ev.commitResult.Done?)
            || Committing(Step(cfg, w, ev).value) == Committing(w)
  {
    hide TxsOf;
  }

  lemma WorkKeepsNear(env: Env, s: State, p: nat, ev: Event)
    requires EnvOk(env) && Sound(env, s) && WorkNext(env, s, p, ev).Some?
    requires NearFrontier(Cancelled(s), s.parts[p])
    ensures NearFrontier(Cancelled(WorkNext(env, s, p, ev).value), WorkNext(env, s, p, ev).value.parts[p])
  {
    hide Step, WorkNext, Frontier, Committing, Sound, Unfinished;
    WorkShape(env, s, p, ev);
    var w := s.parts[p].worker.value;
    var n := Progress(env, s, p, ev);
    StoppedIsStopped(env.cfg, w, ev);
    if Committing(w) != [] {
      CommittingStays(env.cfg, w, ev);
    }
    if n > 0 && !(ev.Commit? && ev.commitResult.Done?) {
      DropIsInert(env, s, p, ev, n);
    }
  }

  lemma NearStays(cancelled: bool, cancelled': bool, part: Part, part': Part)
    requires NearFrontier(cancelled, part) && (cancelled ==> cancelled')
    requires SameProgress(part, part') || part' == part
    ensures NearFrontier(cancelled', part')
  {
    assert Committing(FreshWorker) == [];
    hide Frontier, Committing;
  }

  lemma NextKeepsNear(env: Env, s: State, a: Action)
    requires EnvOk(env) && Sound(env, s) && AllNear(s) && Next(env, s, a).Some?
    ensures AllNear(Next(env, s, a).value)
  {
    var s' := Next(env, s, a).value;
    if a.Work? {
      WorkKeepsNear(env, s, a.p, a.ev);
      hide Step, Effect, CommittedAfter, Sound, NearFrontier;
      forall q | 0 <= q < |s'.parts| && q != a.p ensures NearFrontier(Cancelled(s'), s'.parts[q]) {
        NearStays(Cancelled(s), Cancelled(s'), s.parts[q], s.parts[q]);
      }
    } else if a.Restart? {
      hide WorkNext, Sound;
    } else {
      LoopSameProgress(env, s, a);
      hide Next, Sound, NearFrontier, SameProgress;
      forall q | 0 <= q < |s'.parts| ensures NearFrontier(Cancelled(s'), s'.parts[q]) {
        NearStays(Cancelled(s), Cancelled(s'), s.parts[q], s'.parts[q]);
      }
    }
  }

  lemma {:induction false} EveryRunNear(env: Env, run: seq<Action>)
    requires EnvOk(env) && Reach(env, run).Some?
    ensures AllNear(Reach(env, run).value)
  {
    if run != [] {
      hide Sound, AllNear, Next;
      var before := run[..|run| - 1];
      EveryRunNear(env, before);
      EveryRun(env, before);
      NextKeepsNear(env, Reach(env, before).value, run[|run| - 1]);
    }
  }

  /** Everything of partition p that is fetched and not finished with, in order. */
  function InHand(loop: Loop, p: nat, part: Part): seq<Messages.Msg> {
    WorkerPart(part) + part.queue + Held(loop, p)
  }

  /** How far the committed offset is past the first unfinished message. */
  function Ahead(part: Part): int {
    part.committed - Frontier(part)
  }

  /**
   * A failed commit puts the committed offset ahead by its messages if it was applied, and otherwise changes nothing.
   */
  lemma {:induction false} FailedCommitIsAhead(
      env: Env, run: seq<Action>, p: nat, msgs: seq<Messages.Msg>, applied: bool)
    requires EnvOk(env) && Reach(env, run).Some?
    requires WorkNext(env, Reach(env, run).value, p, Commit(msgs, Failed(applied))).Some?
    ensures var s := Reach(env, run).value;
            var s' := WorkNext(env, s, p, Commit(msgs, Failed(applied))).value;
            && p < |s.parts| == |s'.parts| && msgs != [] && Frontier(s'.parts[p]) == Frontier(s.parts[p])
            && Ahead(s'.parts[p]) == if applied then |msgs| else Ahead(s.parts[p])
  {
    EveryRun(env, run);
    var s := Reach(env, run).value;
    var ev := Commit(msgs, Failed(applied));
    hide Reach, Frontier, Step, Effect, Sound, CommittedAfter, Committing, Unfinished;
    WorkShape(env, s, p, ev);
    SoundWorker(env, s, p);
    CommitPcs(env.cfg, s.parts[p].worker.value, ev);
    var n := Progress(env, s, p, ev);
    hide WorkNext;
  }

  lemma SliceTail(env: Env, p: nat, a: nat, b: nat, end: nat)
    requires p < |env.logs| && a <= b <= end <= |env.logs[p]|
    ensures Slice(env, p, b, end) == Slice(env, p, a, end)[b - a..]
  {
  }

  lemma InHandFromCommitted(env: Env, loop: Loop, p: nat, part: Part)
    requires EnvOk(env) && p < |env.logs| && FlowOk(env, p, part)
    requires 0 <= Frontier(part) <= part.position <= |env.logs[p]|
    requires Slice(env, p, Frontier(part), part.position) == InHand(loop, p, part)
    requires NearFrontier(false, part) && part.closed == 0
    ensures 0 <= Ahead(part) <= |InHand(loop, p, part)| && part.committed <= part.position
    ensures Ahead(part) == 0 || (part.worker.Some? && Ahead(part) == |Committing(part.worker.value)|)
    ensures Slice(env, p, part.committed, part.position) == InHand(loop, p, part)[Ahead(part)..]
    ensures Slice(env, p, part.committed, part.position) == InHand(loop, p, part) <==> Ahead(part) == 0
  {
    if part.worker.Some? {
      CommittingIsFlowPrefix(env, p, part);
    }
    assert |Flow(part)| <= |InHand(loop, p, part)|;
    hide Committing, Frontier, WorkerPart, WorkerOk, Slice;
    SliceTail(env, p, Frontier(part), part.committed, part.position);
  }

  /**
   * Pipeline conservation: in every run, until the context is cancelled or Start leaves its loop early, the log of
   * each partition from the committed offset to the fetch position is what the worker has in hand, then the channel,
   * then the held message; all of it, if and only if no commit in progress has been applied behind an error, and
   * otherwise all but the messages of that commit.
   */
  lemma {:induction false} PipelineConservation(env: Env, run: seq<Action>, p: nat)
    requires EnvOk(env) && Reach(env, run).Some? && p < |env.logs|
    requires !Cancelled(Reach(env, run).value)
    ensures var s := Reach(env, run).value;
            && p < |s.parts|
            && var part := s.parts[p];
               var log := env.logs[p];
               if s.loop.Fetching? || s.loop.Holding? then
                 && 0 <= Ahead(part) <= |InHand(s.loop, p, part)| && part.committed <= part.position <= |log|
                 && (Ahead(part) == 0 || (part.worker.Some? && Ahead(part) == |Committing(part.worker.value)|))
                 && Slice(env, p, part.committed, part.position) == InHand(s.loop, p, part)[Ahead(part)..]
                 && (Slice(env, p, part.committed, part.position) == InHand(s.loop, p, part) <==> Ahead(part) == 0)
               else (s.loop.Closing? || s.loop.Draining?) && s.loop.exit.early
  {
    EveryRun(env, run);
    EveryRunNear(env, run);
    PipelineOrder(env, run, p);
    ChannelProtocol(env, run);
    var s := Reach(env, run).value;
    hide Reach, InFlightOk, Slice, Unfinished, FlowOk, HeldOk, NearFrontier, Ahead, Frontier, Committing;
    if s.loop.Fetching? || s.loop.Holding? {
      InHandFromCommitted(env, s.loop, p, s.parts[p]);
    }
  }

  /** When failed commits have no effect, it is always all of it. */
  lemma {:induction false} ConservationWhenClean(env: Env, run: seq<Action>, p: nat)
    requires EnvOk(env) && Reach(env, run).Some? && CleanCommits(run) && p < |env.logs|
    requires !Cancelled(Reach(env, run).value)
    ensures var s := Reach(env, run).value;
            && p < |s.parts|
            && var part := s.parts[p];
               if s.loop.Fetching? || s.loop.Holding? then
                 && part.committed <= part.position <= |env.logs[p]|
                 && Slice(env, p, part.committed, part.position) == InHand(s.loop, p, part)
               else (s.loop.Closing? || s.loop.Draining?) && s.loop.exit.early
  {
    PipelineConservation(env, run, p);
    CleanRunTight(env, run);
    ChannelProtocol(env, run);
    hide Reach, Slice, InHand, Frontier;
    assert TightPart(env.cfg, false, Reach(env, run).value.parts[p]);
  }
}
