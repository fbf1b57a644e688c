/** What holds in every run, guarded or not: order, channels and workers, the in-flight counter, memory. */
module Protocol {
  import opened Base
  import opened Worker
  import opened World
  import opened Pipeline

  // ---------------------------------------------------------------------------------------------------------
  // Channels, workers and the result of Start
  // ---------------------------------------------------------------------------------------------------------

  /** How often the channel of a partition has been closed, given the position of Start. */
  function ExpectedClosed(loop: Loop, p: nat, part: Part): nat {
    if part.worker.None? || loop.Fetching? || loop.Holding? then 0
    else if loop.Closing? && p in loop.todo then 0
    else 1
  }

  /** What Start returns, or is about to return. */
  predicate ExitOk(s: State, exit: Exit) {
    && (!exit.early ==> Cancelled(s))
    && (exit.early ==> exit.result.None?)
    && (exit.result.Some? ==> s.fatal == exit.result)
    && (s.cancel.ByFatal? && !exit.early ==> exit.result == Some(s.cancel.f))
  }

  ghost predicate ChannelsOk(s: State) {
    && !s.loop.Panicked?
    && (s.loop.Holding? ==> s.loop.m.partition < |s.parts| && s.parts[s.loop.m.partition].worker.Some?)
    && (s.loop.Closing? ==> s.loop.todo <= Started(s.parts))
    && (s.loop.Closing? || s.loop.Draining? || s.loop.Finished? ==> ExitOk(s, s.loop.exit))
    && (s.fatal.Some? ==> Cancelled(s))
    && (s.loop.Finished? ==> Cancelled(s))
    && (s.cancel.ByFatal? ==> s.fatal == Some(s.cancel.f))
    && forall p :: 0 <= p < |s.parts| ==>
                     && s.parts[p].closed == ExpectedClosed(s.loop, p, s.parts[p])
                     && s.parts[p].spawned == (if s.parts[p].worker.Some? then 1 else 0)
  }

  lemma WorkKeepsChannels(env: Env, s: State, p: nat, ev: Event)
    requires ChannelsOk(s) && WorkNext(env, s, p, ev).Some?
    ensures ChannelsOk(WorkNext(env, s, p, ev).value)
  {
    hide Step, Effect, CommittedAfter;
    var s' := WorkNext(env, s, p, ev).value;
    assert forall q: nat :: q < |s.parts| ==> (s'.parts[q].worker.Some? <==> s.parts[q].worker.Some?);
    assert Started(s'.parts) == Started(s.parts);
  }

  lemma LoopKeepsChannels(env: Env, s: State, a: Action)
    requires ChannelsOk(s) && Next(env, s, a).Some? && !a.Work?
    ensures ChannelsOk(Next(env, s, a).value)
  {
    hide WorkNext;
    var s' := Next(env, s, a).value;
    if a.Close? {
      assert a.p in Started(s.parts);
      assert Started(s'.parts) == Started(s.parts);
    }
  }

  lemma NextKeepsChannels(env: Env, s: State, a: Action)
    requires ChannelsOk(s) && Next(env, s, a).Some?
    ensures ChannelsOk(Next(env, s, a).value)
  {
    hide WorkNext;
    if a.Work? {
      WorkKeepsChannels(env, s, a.p, a.ev);
    } else {
      LoopKeepsChannels(env, s, a);
    }
  }

  // ---------------------------------------------------------------------------------------------------------
  // The in-flight counter
  // ---------------------------------------------------------------------------------------------------------

  function Share(part: Part): int {
    if part.worker.Some? then InFlight(part.worker.value) else 0
  }

  /** The sum of a measure over all partitions. */
  function Total(f: Part -> int, parts: seq<Part>): int {
    if parts == [] then 0 else Total(f, parts[..|parts| - 1]) + f(parts[|parts| - 1])
  }

  lemma {:induction false} TotalUpdate(f: Part -> int, parts: seq<Part>, p: nat, part: Part)
    requires p < |parts|
    ensures Total(f, parts[p := part]) == Total(f, parts) - f(parts[p]) + f(part)
  {
    var last := |parts| - 1;
    if p == last {
      assert parts[p := part][..last] == parts[..last];
    } else {
      assert parts[p := part][..last] == parts[..last][p := part];
      TotalUpdate(f, parts[..last], p, part);
    }
  }

  lemma {:induction false} TotalBounded(f: Part -> int, parts: seq<Part>, bound: nat)
    requires forall p :: 0 <= p < |parts| ==> 0 <= f(parts[p]) <= bound
    ensures 0 <= Total(f, parts) <= |parts| * bound
  {
    if parts != [] {
      TotalBounded(f, parts[..|parts| - 1], bound);
      assert |parts| * bound == (|parts| - 1) * bound + bound;
    }
  }

  lemma StartedFront(parts: seq<Part>)
    requires parts != []
    ensures var last := |parts| - 1;
            |Started(parts)| == |Started(parts[..last])| + (if parts[last].worker.Some? then 1 else 0)
  {
    var last: nat := |parts| - 1;
    assert Started(parts[..last]) == Started(parts) - {last};
    if parts[last].worker.Some? {
      assert last in Started(parts);
    } else {
      assert Started(parts[..last]) == Started(parts);
    }
  }

  /** When only started partitions contribute, they alone count for the bound. */
  lemma {:induction false} TotalOfStarted(f: Part -> int, parts: seq<Part>, bound: nat)
    requires forall p :: 0 <= p < |parts| ==> 0 <= f(parts[p]) <= (if parts[p].worker.Some? then bound else 0)
    ensures 0 <= Total(f, parts) <= |Started(parts)| * bound
  {
    if parts != [] {
      var last := |parts| - 1;
      TotalOfStarted(f, parts[..last], bound);
      StartedFront(parts);
      hide Started;
      assert (|Started(parts[..last])| + 1) * bound == |Started(parts[..last])| * bound + bound;
    }
  }

  predicate InFlightOk(s: State) {
    s.inflight == Total(Share, s.parts)
  }

  lemma WorkKeepsInFlight(env: Env, s: State, p: nat, ev: Event)
    requires EnvOk(env) && OrderOk(env, s) && InFlightOk(s) && WorkNext(env, s, p, ev).Some?
    ensures InFlightOk(WorkNext(env, s, p, ev).value)
  {
    assert FlowOk(env, p, s.parts[p]);
    hide Step, Effect, CommittedAfter, WorkerOk, InFlight, Flow, Slice;
    StepAccountsInFlight(env.cfg, s.parts[p].worker.value, ev);
    TotalUpdate(Share, s.parts, p, WorkNext(env, s, p, ev).value.parts[p]);
  }

  /** An action that leaves the workers' control alone leaves the sum of the shares alone. */
  lemma SameSharesKeepInFlight(s: State, s': State, p: nat)
    requires InFlightOk(s) && s'.inflight == s.inflight && p < |s.parts| == |s'.parts|
    requires s'.parts == s.parts[p := s'.parts[p]] && Share(s'.parts[p]) == Share(s.parts[p])
    ensures InFlightOk(s')
  {
    TotalUpdate(Share, s.parts, p, s'.parts[p]);
  }

  lemma NextKeepsInFlight(env: Env, s: State, a: Action)
    requires EnvOk(env) && OrderOk(env, s) && InFlightOk(s) && Next(env, s, a).Some?
    ensures InFlightOk(Next(env, s, a).value)
  {
    assert InFlight(FreshWorker) == 0;
    hide WorkNext, InFlight, OrderOk, InFlightOk;
    var s' := Next(env, s, a).value;
    if a.Work? {
      WorkKeepsInFlight(env, s, a.p, a.ev);
    } else if a.Fetch? {
      SameSharesKeepInFlight(s, s', a.p);
    } else if a.Send? && s'.loop.Fetching? {
      SameSharesKeepInFlight(s, s', s.loop.m.partition);
    } else if a.Close? && s'.loop.Closing? {
      SameSharesKeepInFlight(s, s', a.p);
    } else {
      QuietKeepsInFlight(env, s, a);
    }
  }

  lemma QuietKeepsInFlight(env: Env, s: State, a: Action)
    requires InFlightOk(s) && Next(env, s, a).Some? && !a.Work? && !a.Fetch?
    requires a.Send? || a.Close? ==> Next(env, s, a).value.loop.Panicked?
    ensures InFlightOk(Next(env, s, a).value)
  {
    hide Total;
    if a.Restart? {
      TotalBounded(Share, RestartNext(s).parts, 0);
    }
  }

  // ---------------------------------------------------------------------------------------------------------
  // Every run
  // ---------------------------------------------------------------------------------------------------------

  lemma NextKeepsOrder(env: Env, s: State, a: Action)
    requires EnvOk(env) && OrderOk(env, s) && ChannelsOk(s) && Next(env, s, a).Some?
    ensures OrderOk(env, Next(env, s, a).value)
  {
    hide WorkNext, FlowOk;
    var s' := Next(env, s, a).value;
    match a
    case Work(p, ev) => WorkKeepsOrder(env, s, p, ev);
    case Fetch(p) => FetchKeepsOrder(env, s, p);
    case Send => SendKeepsOrder(env, s);
    case Close(p) =>
      CloseKeepsFlow(env, s, p);
      OnlyPartition(env, s, s', p);
    case Restart => RestartKeepsOrder(env, s);
    case Leave => assert s'.parts == s.parts;
    case LeaveEarly => assert s'.parts == s.parts;
    case _ => assert s'.parts == s.parts;
  }

  lemma CloseKeepsFlow(env: Env, s: State, p: nat)
    requires OrderOk(env, s) && CloseNext(s, p).Some?
    ensures FlowOk(env, p, CloseNext(s, p).value.parts[p])
  {
    hide WorkerOk, Unfinished, Slice;
    assert FlowOk(env, p, s.parts[p]);
    assert Flow(CloseNext(s, p).value.parts[p]) == Flow(s.parts[p]);
  }

  /** What the following sections, and the safety proof, build on. */
  ghost predicate Sound(env: Env, s: State) {
    OrderOk(env, s) && ChannelsOk(s) && InFlightOk(s)
  }

  lemma SoundWorker(env: Env, s: State, p: nat)
    requires EnvOk(env) && Sound(env, s) && p < |s.parts| && s.parts[p].worker.Some?
    ensures OrderOk(env, s) && Normalized(env.cfg) && WorkerOk(env.cfg, s.parts[p].worker.value)
  {
    assert FlowOk(env, p, s.parts[p]);
    hide WorkerOk, Flow, Slice;
  }

  lemma InitSound(env: Env)
    ensures Sound(env, Init(env))
  {
    InitOrderOk(env);
    TotalBounded(Share, Init(env).parts, 0);
  }

  lemma NextKeepsSound(env: Env, s: State, a: Action)
    requires EnvOk(env) && Sound(env, s) && Next(env, s, a).Some?
    ensures Sound(env, Next(env, s, a).value)
  {
    hide OrderOk, ChannelsOk, InFlightOk, Next;
    NextKeepsChannels(env, s, a);
    NextKeepsOrder(env, s, a);
    NextKeepsInFlight(env, s, a);
  }

  lemma {:induction false} RunKeepsSound(env: Env, s: State, run: seq<Action>)
    requires EnvOk(env) && Sound(env, s) && RunFrom(env, s, run).Some?
    ensures Sound(env, RunFrom(env, s, run).value)
  {
    if run != [] {
      hide Sound, Next;
      RunKeepsSound(env, s, run[..|run| - 1]);
      NextKeepsSound(env, RunFrom(env, s, run[..|run| - 1]).value, run[|run| - 1]);
    }
  }

  /** All of the above, for every state of every run. */
  lemma EveryRun(env: Env, run: seq<Action>)
    requires EnvOk(env) && Reach(env, run).Some?
    ensures Sound(env, Reach(env, run).value)
  {
    hide Sound, Init, RunFrom;
    InitSound(env);
    RunKeepsSound(env, Init(env), run);
  }

  // ---------------------------------------------------------------------------------------------------------
  // What it means
  // ---------------------------------------------------------------------------------------------------------

  lemma FlowThenHeld(env: Env, loop: Loop, p: nat, part: Part)
    requires p < |env.logs| && FlowOk(env, p, part) && HeldOk(env, loop, p, part)
    requires loop.Fetching? || loop.Holding?
    ensures 0 <= Frontier(part) <= part.position <= |env.logs[p]|
    ensures Slice(env, p, Frontier(part), part.position) == Flow(part) + Held(loop, p)
  {
    hide Flow, Slice, WorkerOk;
    if loop.Holding? && loop.m.partition == p {
      AppendNext(env, p, Frontier(part), part.delivered);
    }
  }

  /**
   * Pipeline conservation: while the fetch loop runs, the log of each partition from the first unfinished message to
   * the fetch position is what the worker has in hand, then the channel, then the held message; nothing is dropped,
   * duplicated or reordered.
   */
  lemma PipelineOrder(env: Env, run: seq<Action>, p: nat)
    requires EnvOk(env) && Reach(env, run).Some? && p < |env.logs|
    ensures var s := Reach(env, run).value;
            && p < |s.parts|
            && var part := s.parts[p];
               s.loop.Fetching? || s.loop.Holding? ==>
                 && 0 <= Frontier(part) <= part.position <= |env.logs[p]|
                 && Slice(env, p, Frontier(part), part.position) == WorkerPart(part) + part.queue + Held(s.loop, p)
  {
    EveryRun(env, run);
    var s := Reach(env, run).value;
    hide Reach, ChannelsOk, InFlightOk, FlowOk, HeldOk, Unfinished, Slice;
    if s.loop.Fetching? || s.loop.Holding? {
      FlowThenHeld(env, s.loop, p, s.parts[p]);
    }
  }

  /**
   * Channel and worker protocol: no send or close ever meets a closed channel; each partition starts at most one
   * worker per incarnation, whose channel is closed exactly once when the shutdown is over; and when a fatal
   * dead-letter error is what cancelled the context, Start returns that error, which is the first one, if and only if
   * it did not leave its loop early, before that.
   */
  lemma ChannelProtocol(env: Env, run: seq<Action>)
    requires EnvOk(env) && Reach(env, run).Some?
    ensures var s := Reach(env, run).value;
            && !s.loop.Panicked?
            && (forall p :: 0 <= p < |s.parts| ==> s.parts[p].spawned <= 1 && s.parts[p].closed <= s.parts[p].spawned)
            && (s.loop.Fetching? || s.loop.Holding? ==> forall p :: 0 <= p < |s.parts| ==> s.parts[p].closed == 0)
            && (s.loop.Draining? || s.loop.Finished? ==>
                  forall p :: 0 <= p < |s.parts| ==> s.parts[p].closed == s.parts[p].spawned)
            && (s.loop.Finished? ==> Cancelled(s) && (s.loop.exit.result.Some? ==> s.loop.exit.result == s.fatal))
            && (s.loop.Finished? && s.cancel.ByFatal? ==>
                  && s.fatal == Some(s.cancel.f)
                  && (s.loop.exit.result == Some(s.cancel.f) <==> !s.loop.exit.early))
  {
    EveryRun(env, run);
    hide Reach, OrderOk, InFlightOk;
  }

  /** The recorded fatal error is the first: within an incarnation no later error replaces it. */
  lemma FirstFatalStays(env: Env, s: State, a: Action)
    requires Next(env, s, a).Some? && !a.Restart? && s.fatal.Some?
    ensures Next(env, s, a).value.fatal == s.fatal
    ensures s.cancel.ByFatal? ==> Next(env, s, a).value.cancel == s.cancel
  {
    hide Step, Effect, CommittedAfter;
  }

  predicate AllStopped(s: State) {
    forall p :: 0 <= p < |s.parts| && s.parts[p].worker.Some? ==> s.parts[p].worker.value.pc == Stopped
  }

  /**
   * In-flight accounting: in every interleaving the counter is the sum of the workers' shares, each between zero and
   * the batch size, so it is never negative, and at most the batch size for each worker; and it is zero when every
   * worker is stopped.
   */
  lemma InFlightAccounting(env: Env, run: seq<Action>)
    requires EnvOk(env) && Reach(env, run).Some?
    ensures var s := Reach(env, run).value;
            && s.inflight == Total(Share, s.parts)
            && (forall p :: 0 <= p < |s.parts| ==> 0 <= Share(s.parts[p]) <= env.cfg.batchSize)
            && 0 <= s.inflight <= |Started(s.parts)| * env.cfg.batchSize
            && (AllStopped(s) ==> s.inflight == 0)
  {
    EveryRun(env, run);
    InFlightOfShares(env, Reach(env, run).value);
  }

  lemma StoppedShares(s: State)
    requires AllStopped(s)
    ensures Total(Share, s.parts) == 0
  {
    assert forall p :: 0 <= p < |s.parts| ==> Share(s.parts[p]) == 0;
    hide *;
    TotalBounded(Share, s.parts, 0);
  }

  lemma InFlightOfShares(env: Env, s: State)
    requires EnvOk(env) && OrderOk(env, s) && InFlightOk(s)
    ensures forall p :: 0 <= p < |s.parts| ==> 0 <= Share(s.parts[p]) <= env.cfg.batchSize
    ensures 0 <= s.inflight <= |Started(s.parts)| * env.cfg.batchSize
    ensures AllStopped(s) ==> s.inflight == 0
  {
    hide InFlight, FlowOk, HeldOk, Total, Share;
    forall p | 0 <= p < |s.parts|
      ensures 0 <= Share(s.parts[p]) <= (if s.parts[p].worker.Some? then env.cfg.batchSize else 0)
    {
      ShareBounded(env, s, p);
    }
    if AllStopped(s) {
      StoppedShares(s);
    }
    assert s.inflight == Total(Share, s.parts);
    hide *;
    TotalOfStarted(Share, s.parts, env.cfg.batchSize);
  }

  lemma ShareBounded(env: Env, s: State, p: nat)
    requires EnvOk(env) && OrderOk(env, s) && p < |s.parts|
    ensures 0 <= Share(s.parts[p]) <= (if s.parts[p].worker.Some? then env.cfg.batchSize else 0)
    ensures 0 <= Backlog(s.parts[p]) <= (if s.parts[p].worker.Some? then env.cfg.batchSize + QUEUE_SIZE else 0)
  {
    assert FlowOk(env, p, s.parts[p]);
    hide Flow, Slice, WorkerOk, InFlight, Unfinished;
    if s.parts[p].worker.Some? {
      InFlightBounded(env.cfg, s.parts[p].worker.value);
      UnfinishedBounded(env.cfg, s.parts[p].worker.value);
    }
  }

  /** Messages in memory for one partition. */
  function Backlog(part: Part): int {
    |WorkerPart(part)| + |part.queue|
  }

  /** Bounded memory: at most 128 queued and BatchSize buffered messages for each worker, and one message held. */
  lemma BoundedMemory(env: Env, run: seq<Action>)
    requires EnvOk(env) && Reach(env, run).Some?
    ensures var s := Reach(env, run).value;
            Total(Backlog, s.parts) + (if s.loop.Holding? then 1 else 0)
            <= |Started(s.parts)| * (env.cfg.batchSize + QUEUE_SIZE) + 1
  {
    EveryRun(env, run);
    hide Reach;
    MemoryOfParts(env, Reach(env, run).value);
  }

  lemma MemoryOfParts(env: Env, s: State)
    requires EnvOk(env) && OrderOk(env, s)
    ensures Total(Backlog, s.parts) <= |Started(s.parts)| * (env.cfg.batchSize + QUEUE_SIZE)
  {
    hide FlowOk, HeldOk, Total, Backlog;
    forall p | 0 <= p < |s.parts|
      ensures 0 <= Backlog(s.parts[p]) <= (if s.parts[p].worker.Some? then env.cfg.batchSize + QUEUE_SIZE else 0)
    {
      ShareBounded(env, s, p);
    }
    hide *;
    TotalOfStarted(Backlog, s.parts, env.cfg.batchSize + QUEUE_SIZE);
  }

  /** The buffer holds valid messages only, and is below the batch size whenever the worker is at its select. */
  lemma BufferBelowBatchSize(env: Env, run: seq<Action>, p: nat)
    requires EnvOk(env) && Reach(env, run).Some? && p < |env.logs|
    ensures var s := Reach(env, run).value;
            p < |s.parts| && (s.parts[p].worker.Some? ==>
                                var w := s.parts[p].worker.value;
                                && AllValid(env.cfg, w.batch)
                                && (w.pc.Select? ==> |w.batch| < env.cfg.batchSize))
  {
    EveryRun(env, run);
    hide Reach, ChannelsOk, InFlightOk, Slice, Flow, Unfinished;
    assert FlowOk(env, p, Reach(env, run).value.parts[p]);
  }
}
