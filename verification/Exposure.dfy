/** Which logs and settings can lose a message at all: a condition that can be read off before anything runs. */
module Exposure {
  import opened Worker
  import opened Pipeline
  import opened Protocol
  import opened NoLoss
  import Window
  import LosingRun
  import Once

  /** A flush that a rejected message waits behind is in progress. */
  predicate InForcedFlush(w: Worker) {
    && w.ret.ToReject?
    && (|| InBulk(w.pc) || w.pc.FallbackEnter? || w.pc.FallbackLoop? || w.pc.FlushExit?
        || (w.pc.Handle? && w.pc.caller.FromFallback?)
        || (w.pc.HandleExit? && w.pc.caller.FromFallback?))
  }

  predicate Unforced(w: Worker) {
    !InForcedFlush(w) && !w.pc.RejectRecheck? && !(w.pc.RejectEnter? && w.aborted)
  }

  /** A rejected message has arrived behind buffered ones. */
  predicate Forces(cfg: Config, w: Worker) {
    w.pc.Received? && !Valid(cfg, w.pc.m) && w.batch != []
  }

  /** Only such a message makes a worker flush and then handle it. */
  lemma StepStaysUnforced(cfg: Config, w: Worker, ev: Event)
    requires Step(cfg, w, ev).Some? && Unforced(w) && !Forces(cfg, w) && !cfg.recheckAfterFlush
    ensures Unforced(Step(cfg, w, ev).value)
  {
    hide TxsOf;
    if w.pc.Handle? {
      HandleStaysHandling(cfg, w, w.pc.h, w.pc.m, w.pc.caller, ev);
      hide HandleStep;
    } else {
      hide HandleStep;
    }
  }

  /** Some partition has a valid message directly followed by a rejected one. */
  predicate HasPair(env: Env) {
    exists p: nat, o: nat | p < |env.logs| && o < |env.logs[p]| :: LosingRun.Pair(env, p, o)
  }

  /** In the hands of a worker neighbours are neighbours of the log. */
  lemma ForcedByPair(env: Env, s: State, p: nat)
    requires EnvOk(env) && Sound(env, s) && p < |s.parts| && s.parts[p].worker.Some?
    requires Forces(env.cfg, s.parts[p].worker.value)
    ensures HasPair(env) && env.cfg.batchSize >= 2
  {
    hide *;
    var w := s.parts[p].worker.value;
    SoundWorker(env, s, p);
    ForcedInHand(env.cfg, w);
    Once.UnfinishedInLog(env, s, p, |w.batch| - 1);
    Once.UnfinishedInLog(env, s, p, |w.batch|);
    PairAt(env, p, Frontier(s.parts[p]) + |w.batch| - 1);
  }

  lemma PairAt(env: Env, p: nat, o: nat)
    requires Once.InLog(env, p, o + 1) && Valid(env.cfg, MsgAt(env, p, o)) && !Valid(env.cfg, MsgAt(env, p, o + 1))
    ensures HasPair(env)
  {
    assert LosingRun.Pair(env, p, o);
  }

  lemma ForcedInHand(cfg: Config, w: Worker)
    requires Normalized(cfg) && WorkerOk(cfg, w) && Forces(cfg, w)
    ensures var n := |w.batch|;
            && 1 <= n && |Unfinished(w)| == n + 1 && cfg.batchSize >= 2
            && Valid(cfg, Unfinished(w)[n - 1]) && !Valid(cfg, Unfinished(w)[n])
  {
    assert w.batch[0..] == w.batch;
    assert Unfinished(w) == w.batch + [w.pc.m];
    assert Valid(cfg, w.batch[|w.batch| - 1]);
  }

  predicate AllUnforced(s: State) {
    forall p :: 0 <= p < |s.parts| && s.parts[p].worker.Some? ==> Unforced(s.parts[p].worker.value)
  }

  lemma WorkStaysUnforced(env: Env, s: State, p: nat, ev: Event)
    requires EnvOk(env) && Sound(env, s) && AllUnforced(s) && WorkNext(env, s, p, ev).Some?
    requires !env.cfg.recheckAfterFlush && (env.cfg.batchSize == 1 || !HasPair(env))
    ensures AllUnforced(WorkNext(env, s, p, ev).value)
  {
    hide Step, WorkNext, Sound, HasPair, Unforced, Forces;
    WorkShape(env, s, p, ev);
    var w := s.parts[p].worker.value;
    if Forces(env.cfg, w) {
      ForcedByPair(env, s, p);
    }
    assert Unforced(w);
    StepStaysUnforced(env.cfg, w, ev);
  }

  lemma LoopStaysUnforced(env: Env, s: State, a: Action)
    requires EnvOk(env) && Sound(env, s) && AllUnforced(s) && Next(env, s, a).Some? && !a.Work? && !a.Restart?
    ensures AllUnforced(Next(env, s, a).value)
  {
    assert Unforced(FreshWorker);
    hide Next, Sound, Unforced;
    LoopSameProgress(env, s, a);
    var s' := Next(env, s, a).value;
    forall p | 0 <= p < |s'.parts| && s'.parts[p].worker.Some? ensures Unforced(s'.parts[p].worker.value) {
      assert SameProgress(s.parts[p], s'.parts[p]);
    }
  }

  lemma NextStaysUnforced(env: Env, s: State, a: Action)
    requires EnvOk(env) && Sound(env, s) && AllUnforced(s) && Next(env, s, a).Some? && !env.cfg.recheckAfterFlush
    requires env.cfg.batchSize == 1 || !HasPair(env)
    ensures AllUnforced(Next(env, s, a).value)
  {
    hide WorkNext, Sound, HasPair, Unforced;
    if a.Work? {
      WorkStaysUnforced(env, s, a.p, a.ev);
      hide AllUnforced;
    } else if !a.Restart? {
      LoopStaysUnforced(env, s, a);
      hide Next, AllUnforced;
    }
  }

  lemma UnforcedIsGuarded(s: State)
    requires AllUnforced(s)
    ensures Window.NoRejectAfterAbort(s)
  {
  }

  lemma {:induction false} UnforcedRun(env: Env, run: seq<Action>)
    requires EnvOk(env) && Reach(env, run).Some? && !env.cfg.recheckAfterFlush
    requires env.cfg.batchSize == 1 || !HasPair(env)
    ensures Window.Guarded(env, Init(env), run) && AllUnforced(Reach(env, run).value)
  {
    if run != [] {
      hide Sound, Next, AllUnforced, Window.NoRejectAfterAbort, HasPair, Init;
      var before := run[..|run| - 1];
      UnforcedRun(env, before);
      EveryRun(env, before);
      NextStaysUnforced(env, Reach(env, before).value, run[|run| - 1]);
      UnforcedIsGuarded(Reach(env, run).value);
    }
  }

  /** Without a dead-letter writer a rejected message is never committed. */
  lemma {:induction false} NoWriterStaysOut(env: Env, run: seq<Action>)
    requires EnvOk(env) && Reach(env, run).Some? && !env.cfg.hasWriter
    ensures StaysOutOfWindow(env, Init(env), run)
  {
    if run != [] {
      NoWriterStaysOut(env, run[..|run| - 1]);
      EveryRun(env, run);
      hide RunFrom, SafeBelow, Frontier, FlowOk, HeldOk;
    }
  }

  /** The code, its settings and its log can lose a message. */
  predicate Exposed(env: Env) {
    LosingRun.Lossy(env.cfg) && HasPair(env)
  }

  lemma {:induction false} UnexposedLosesNothing(env: Env, run: seq<Action>)
    requires EnvOk(env) && !Exposed(env) && Reach(env, run).Some?
    ensures NothingLost(env, Reach(env, run).value)
  {
    hide Reach, NothingLost, HasPair, Init, Window.Guarded, StaysOutOfWindow;
    if env.cfg.recheckAfterFlush {
      Window.NoLossWithRecheck(env, run);
    } else if !env.cfg.hasWriter {
      NoWriterStaysOut(env, run);
      NoLossOutsideWindow(env, run);
    } else {
      UnforcedRun(env, run);
      Window.NoLossWhenGuarded(env, run);
    }
  }

  /**
   * No run loses a message if and only if the context is looked at again, or there is no dead-letter writer, or
   * messages are not batched, or no partition has a valid message directly followed by a rejected one.
   */
  lemma NoRunLosesIff(env: Env)
    requires EnvOk(env)
    ensures (forall run :: Reach(env, run).Some? ==> NothingLost(env, Reach(env, run).value))
       <==> (env.cfg.recheckAfterFlush || !env.cfg.hasWriter || env.cfg.batchSize == 1 || !HasPair(env))
  {
    hide Reach, NothingLost, LosingRun.Pair;
    if Exposed(env) {
      var p: nat, o: nat :| p < |env.logs| && o < |env.logs[p]| && LosingRun.Pair(env, p, o);
      var run := LosingRun.CodeCanLose(env, p, o);
    } else {
      forall run | Reach(env, run).Some? ensures NothingLost(env, Reach(env, run).value) {
        UnexposedLosesNothing(env, run);
      }
    }
  }
}
