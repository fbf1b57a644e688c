/**
 * Nothing gets stuck: Start comes to its end and reports a fatal error, no worker is ever without a next interaction,
 * and a graceful shutdown is always possible.
 */
module Liveness {
  import opened Base
  import opened Errors
  import Messages
  import opened Worker
  import opened World
  import opened Pipeline
  import opened Protocol
  import Shutdown

  // ---------------------------------------------------------------------------------------------------------
  // Start comes to its end
  // ---------------------------------------------------------------------------------------------------------

  /** The actions of Start after its loop, which wait for nobody but the drain. */
  predicate EndsStart(a: Action) {
    a.Leave? || a.Close? || a.BeginDrain? || a.EndDrain?
  }

  /** The actions of Start by which it gets on. */
  predicate IsStarts(a: Action) {
    EndsStart(a) || a.Fetch? || a.Send?
  }

  /** The partitions after the shutdown: each started channel is closed, once. */
  function AllShut(parts: seq<Part>): (shut: seq<Part>)
    ensures |shut| == |parts|
    ensures forall p :: 0 <= p < |parts| ==>
              shut[p] == parts[p].(closed := if parts[p].worker.Some? then 1 else 0)
  {
    seq(|parts|, p requires 0 <= p < |parts| => parts[p].(closed := if parts[p].worker.Some? then 1 else 0))
  }

  lemma RunPrepend(env: Env, s: State, a: Action, more: seq<Action>)
    requires Next(env, s, a).Some?
    ensures RunFrom(env, s, [a] + more) == RunFrom(env, Next(env, s, a).value, more)
  {
    RunOne(env, s, a);
    hide Next;
    RunConcat(env, s, [a], more);
  }

  lemma {:induction false} CloseAll(env: Env, s: State) returns (more: seq<Action>)
    requires ChannelsOk(s) && s.loop.Closing?
    ensures |more| == |s.loop.todo| && forall i :: 0 <= i < |more| ==> more[i].Close?
    ensures RunFrom(env, s, more) == Some(s.(loop := Closing({}, s.loop.exit), parts := AllShut(s.parts)))
    decreases |s.loop.todo|
  {
    hide AllShut;
    if s.loop.todo == {} {
      more := [];
      assert s.parts == AllShut(s.parts);
      assert s == s.(loop := Closing({}, s.loop.exit), parts := AllShut(s.parts));
    } else {
      var p :| p in s.loop.todo;
      OneMoreClosed(env, s, p);
      hide ChannelsOk, CloseNext;
      var s' := CloseNext(s, p).value;
      var rest := CloseAll(env, s');
      more := [Close(p)] + rest;
      RunPrepend(env, s, Close(p), rest);
    }
  }

  lemma OneMoreClosed(env: Env, s: State, p: nat)
    requires ChannelsOk(s) && s.loop.Closing? && p in s.loop.todo
    ensures CloseNext(s, p).Some?
    ensures var s' := CloseNext(s, p).value;
            && ChannelsOk(s') && AllShut(s'.parts) == AllShut(s.parts)
            && s' == s.(loop := Closing(s.loop.todo - {p}, s.loop.exit), parts := s'.parts)
  {
    hide AllShut;
    assert p in Started(s.parts);
    LoopKeepsChannels(env, s, Close(p));
    var s' := CloseNext(s, p).value;
    assert AllShut(s'.parts) == AllShut(s.parts);
  }

  /** How Start will leave, once it has to. */
  function ExitOf(s: State): Exit {
    match s.loop
    case Closing(_, exit) => exit
    case Draining(exit) => exit
    case Finished(exit) => exit
    case _ => Exit(s.fatal, false)
  }

  /** Start has to leave its loop, or has left it. */
  predicate MustEnd(s: State) {
    s.loop.Fetching? || s.loop.Holding? ==> Cancelled(s)
  }

  /** All channels are closed and Start waits for its workers. */
  function Drained(s: State): State {
    s.(loop := Draining(ExitOf(s)), parts := AllShut(s.parts))
  }

  lemma StartLeaves(env: Env, s: State) returns (more: seq<Action>)
    requires ChannelsOk(s) && MustEnd(s) && (s.loop.Fetching? || s.loop.Holding?)
    ensures |more| <= |Started(s.parts)| + 2
    ensures forall i :: 0 <= i < |more| ==> more[i].Leave? || more[i].Close? || more[i].BeginDrain?
    ensures RunFrom(env, s, more) == Some(Drained(s))
  {
    hide AllShut;
    LoopKeepsChannels(env, s, Leave);
    var s' := Next(env, s, Leave).value;
    hide ChannelsOk;
    var rest := ChannelsClose(env, s');
    RunPrepend(env, s, Leave, rest);
    more := [Leave] + rest;
  }

  lemma ChannelsClose(env: Env, s: State) returns (more: seq<Action>)
    requires ChannelsOk(s) && s.loop.Closing?
    ensures |more| <= |Started(s.parts)| + 1 && forall i :: 0 <= i < |more| ==> more[i].Close? || more[i].BeginDrain?
    ensures RunFrom(env, s, more) == Some(Drained(s))
  {
    hide AllShut;
    var closes := CloseAll(env, s);
    TodoIsStarted(s);
    var closed := s.(loop := Closing({}, s.loop.exit), parts := AllShut(s.parts));
    RunConcat(env, s, closes, [BeginDrain]);
    RunOne(env, closed, BeginDrain);
    more := closes + [BeginDrain];
    hide RunFrom, ChannelsOk, Started;
  }

  lemma TodoIsStarted(s: State)
    requires ChannelsOk(s) && s.loop.Closing?
    ensures |s.loop.todo| <= |Started(s.parts)|
  {
    SubsetSize(s.loop.todo, Started(s.parts));
  }

  lemma {:induction false} SubsetSize(a: set<nat>, b: set<nat>)
    requires a <= b
    ensures |a| <= |b|
  {
    assert b == a + (b - a);
  }

  lemma StartDrains(env: Env, s: State) returns (more: seq<Action>)
    requires ChannelsOk(s) && MustEnd(s) && !s.loop.Finished?
    ensures |more| <= |Started(s.parts)| + 2
    ensures forall i :: 0 <= i < |more| ==> more[i].Leave? || more[i].Close? || more[i].BeginDrain?
    ensures RunFrom(env, s, more) == Some(Drained(s))
  {
    if s.loop.Fetching? || s.loop.Holding? {
      more := StartLeaves(env, s);
    } else if s.loop.Closing? {
      more := ChannelsClose(env, s);
    } else {
      assert s.loop.Draining?;
      assert s.parts == AllShut(s.parts);
      more := [];
    }
  }

  /** Start has returned, and the deferred cancel has run. */
  function Ended(s: State): State {
    CancelNext(s.(loop := Finished(ExitOf(s)), parts := AllShut(s.parts)))
  }

  lemma StartEnds(env: Env, s: State) returns (more: seq<Action>)
    requires ChannelsOk(s) && MustEnd(s) && !s.loop.Finished?
    ensures |more| <= |Started(s.parts)| + 3 && forall i :: 0 <= i < |more| ==> EndsStart(more[i])
    ensures RunFrom(env, s, more) == Some(Ended(s))
  {
    hide RunFrom, ChannelsOk, Started, AllShut, MustEnd, ExitOf;
    var drain := StartDrains(env, s);
    RunConcat(env, s, drain, [EndDrain]);
    RunOne(env, Drained(s), EndDrain);
    more := drain + [EndDrain];
  }

  lemma EndedShape(s: State)
    requires ChannelsOk(s)
    ensures var s' := Ended(s);
            && s'.loop == Finished(ExitOf(s)) && Cancelled(s') && s'.world == s.world && |s'.parts| == |s.parts|
            && !s.loop.Panicked?
            && forall p :: 0 <= p < |s.parts| ==>
                             s'.parts[p] == s.parts[p].(closed := if s.parts[p].worker.Some? then 1 else 0)
  {
  }

  /**
   * Start finishes: from every reachable state in which it has to leave its loop, or has left it, Start comes to its
   * end by its own actions alone, whatever the workers do or fail to do, after at most three actions more than there
   * are channels to close. Every started channel has then been closed once, and the result is the fatal error recorded
   * when the loop was left.
   */
  lemma StartFinishes(env: Env, run: seq<Action>) returns (more: seq<Action>)
    requires EnvOk(env) && Reach(env, run).Some? && !Reach(env, run).value.loop.Finished?
    requires var s := Reach(env, run).value; s.loop.Fetching? || s.loop.Holding? ==> Cancelled(s)
    ensures |more| <= |Started(Reach(env, run).value.parts)| + 3
    ensures forall i :: 0 <= i < |more| ==> more[i].Leave? || more[i].Close? || more[i].BeginDrain? || more[i].EndDrain?
    ensures RunFrom(env, Reach(env, run).value, more).Some?
    ensures var s := Reach(env, run).value;
            var s' := RunFrom(env, s, more).value;
            && s'.loop.Finished? && Cancelled(s') && s'.world == s.world && |s'.parts| == |s.parts|
            && (s.loop.Fetching? || s.loop.Holding? ==> s'.loop.exit == Exit(s.fatal, false))
            && (s.loop.Closing? || s.loop.Draining? ==> s'.loop.exit == s.loop.exit)
            && forall p :: 0 <= p < |s.parts| ==>
                             s'.parts[p] == s.parts[p].(closed := if s.parts[p].worker.Some? then 1 else 0)
  {
    EveryRun(env, run);
    var s := Reach(env, run).value;
    hide Reach, RunFrom, ChannelsOk, OrderOk, InFlightOk, Started, Ended;
    EndedShape(s);
    more := StartEnds(env, s);
  }

  /**
   * When a fetch fails with context.Canceled on a live context, Start leaves its loop and finishes with no error; any
   * other failure leaves everything as it is.
   */
  lemma EarlyExitFinishes(env: Env, run: seq<Action>) returns (more: seq<Action>)
    requires EnvOk(env) && Reach(env, run).Some?
    requires Reach(env, run).value.loop.Fetching? && !Cancelled(Reach(env, run).value)
    ensures |more| <= |Started(Reach(env, run).value.parts)| + 3 && |more| > 0 && more[0] == LeaveEarly
    ensures forall i :: 1 <= i < |more| ==> EndsStart(more[i])
    ensures Next(env, Reach(env, run).value, FetchFailed) == Some(Reach(env, run).value)
    ensures var s' := RunFrom(env, Reach(env, run).value, more);
            s'.Some? && s'.value.loop == Finished(Exit(None, true)) && Cancelled(s'.value)
  {
    EveryRun(env, run);
    var s := Reach(env, run).value;
    hide Reach, OrderOk, InFlightOk;
    LoopKeepsChannels(env, s, LeaveEarly);
    NoFatalYet(s);
    var s1 := Next(env, s, LeaveEarly).value;
    hide ChannelsOk, RunFrom, Started, Ended;
    EndedShape(s1);
    var closes := ChannelsClose(env, s1);
    RunConcat(env, s1, closes, [EndDrain]);
    RunOne(env, Drained(s1), EndDrain);
    RunPrepend(env, s, LeaveEarly, closes + [EndDrain]);
    more := [LeaveEarly] + (closes + [EndDrain]);
  }

  lemma NoFatalYet(s: State)
    requires ChannelsOk(s) && !Cancelled(s)
    ensures s.fatal.None?
  {
  }

  /** Start has nothing left to do, waits for a message, or for room in the channel of the message it holds. */
  ghost predicate Waits(env: Env, s: State) {
    || s.loop.Finished?
    || (&& s.loop.Fetching? && !Cancelled(s)
        && forall p :: 0 <= p < |env.logs| && p < |s.parts| ==> s.parts[p].position == |env.logs[p]|)
    || (&& s.loop.Holding? && !Cancelled(s)
        && s.loop.m.partition < |s.parts| && |s.parts[s.loop.m.partition].queue| == 128)
  }

  /**
   * Start never gets stuck: in every reachable state an action by which it gets on is possible, unless it is over, or
   * its context is live and there is nothing to fetch, or its context is live and the channel of the message it holds
   * has its 128 messages.
   */
  lemma StartBlockedIff(env: Env, run: seq<Action>)
    requires EnvOk(env) && Reach(env, run).Some?
    ensures var s := Reach(env, run).value;
            (forall a :: IsStarts(a) ==> Next(env, s, a).None?) <==> Waits(env, s)
  {
    EveryRun(env, run);
    var s := Reach(env, run).value;
    hide Reach, InFlightOk, Next, OrderOk, ChannelsOk, Waits;
    if Waits(env, s) {
      forall a | IsStarts(a) ensures Next(env, s, a).None? {
        WaitingBlocks(env, s, a);
      }
    } else {
      var a := StartsNext(env, s);
      assert IsStarts(a) && Next(env, s, a).Some?;
    }
  }

  lemma WaitingBlocks(env: Env, s: State, a: Action)
    requires OrderOk(env, s) && ChannelsOk(s) && Waits(env, s) && IsStarts(a)
    ensures Next(env, s, a).None?
  {
    hide WorkNext, FlowOk, HeldOk;
  }

  lemma StartsNext(env: Env, s: State) returns (a: Action)
    requires EnvOk(env) && OrderOk(env, s) && ChannelsOk(s) && !Waits(env, s)
    ensures IsStarts(a) && Next(env, s, a).Some?
  {
    hide WorkNext, Slice, Flow, WorkerOk;
    match s.loop
    case Fetching =>
      if Cancelled(s) {
        a := Leave;
      } else {
        var p: nat :| p < |env.logs| && p < |s.parts| && s.parts[p].position != |env.logs[p]|;
        assert FlowOk(env, p, s.parts[p]);
        a := Fetch(p);
      }
    case Holding(m) =>
      if Cancelled(s) {
        a := Leave;
      } else {
        assert FlowOk(env, m.partition, s.parts[m.partition]);
        a := Send;
      }
    case Closing(todo, exit) =>
      if todo == {} {
        a := BeginDrain;
      } else {
        var p :| p in todo;
        assert p in Started(s.parts);
        a := Close(p);
      }
    case Draining(exit) => a := EndDrain;
    case _ => assert false;
  }

  // ---------------------------------------------------------------------------------------------------------
  // The fatal error
  // ---------------------------------------------------------------------------------------------------------

  /** The fatal error f cancelled the context while Start was still in its loop. */
  predicate FatalPending(s: State, f: Fatal) {
    && s.cancel == ByFatal(f) && s.fatal == Some(f)
    && (s.loop.Closing? || s.loop.Draining? || s.loop.Finished? ==> !s.loop.exit.early)
  }

  lemma FatalStaysPending(env: Env, s: State, a: Action, f: Fatal)
    requires FatalPending(s, f) && Next(env, s, a).Some? && !a.Restart?
    ensures FatalPending(Next(env, s, a).value, f)
  {
    hide Step, Effect, CommittedAfter;
  }

  lemma {:induction false} FatalStaysInRun(env: Env, s: State, run: seq<Action>, f: Fatal)
    requires FatalPending(s, f) && RunFrom(env, s, run).Some? && Shutdown.NoRestart(run)
    ensures FatalPending(RunFrom(env, s, run).value, f)
  {
    if run != [] {
      hide Next, FatalPending;
      var before := run[..|run| - 1];
      FatalStaysInRun(env, s, before, f);
      FatalStaysPending(env, RunFrom(env, s, before).value, run[|run| - 1], f);
    }
  }

  /**
   * A fatal dead-letter error is reported: when a worker finds no dead-letter writer while the context is live and
   * Start is in its loop, then Start, however the run goes on, can only return that error; and by StartFinishes it
   * can.
   */
  lemma FatalIsReturned(env: Env, run: seq<Action>, p: nat, m: Messages.Msg, reason: Error, more: seq<Action>)
    requires EnvOk(env) && Reach(env, run).Some? && !Cancelled(Reach(env, run).value)
    requires Reach(env, run).value.loop.Fetching? || Reach(env, run).value.loop.Holding?
    requires var run' := run + [Work(p, WriteDlq(m, reason, NotConfigured))] + more;
             Reach(env, run').Some? && Shutdown.NoRestart(more)
    ensures var s' := Reach(env, run + [Work(p, WriteDlq(m, reason, NotConfigured))] + more).value;
            && Cancelled(s') && s'.fatal == Some(Fatal(m))
            && (s'.loop.Finished? ==> s'.loop.exit == Exit(Some(Fatal(m)), false))
  {
    var s := Reach(env, run).value;
    var a := Work(p, WriteDlq(m, reason, NotConfigured));
    var f := Fatal(m);
    EveryRun(env, run);
    ReachesPrefix(env, run + [a], more);
    RunConcat(env, Init(env), run, [a]);
    RunOne(env, s, a);
    NoFatalYet(s);
    assert FatalPending(Next(env, s, a).value, f) by { hide Step, Effect, CommittedAfter; }
    RunConcat(env, Init(env), run + [a], more);
    FatalStaysInRun(env, Next(env, s, a).value, more, f);
    ChannelProtocol(env, run + [a] + more);
    hide RunFrom, Next, Sound;
  }

  lemma {:induction false} ReachesPrefix(env: Env, run: seq<Action>, more: seq<Action>)
    requires Reach(env, run + more).Some?
    ensures Reach(env, run).Some?
  {
    if more == [] {
      assert run + more == run;
    } else {
      hide Next, Init;
      assert (run + more)[..|run + more| - 1] == run + more[..|more| - 1];
      ReachesPrefix(env, run, more[..|more| - 1]);
    }
  }

  // ---------------------------------------------------------------------------------------------------------
  // Workers stop only when they may
  // ---------------------------------------------------------------------------------------------------------

  /** A worker that has stopped did so on a cancelled context, or at the end of its closed channel. */
  predicate StopOk(cancelled: bool, part: Part) {
    part.worker.Some? && part.worker.value.pc.Stopped? ==> cancelled || (part.closed > 0 && part.queue == [])
  }

  ghost predicate StopsOk(s: State) {
    forall p :: 0 <= p < |s.parts| ==> StopOk(Cancelled(s), s.parts[p])
  }

  lemma Stops(cfg: Config, w: Worker, ev: Event)
    requires Step(cfg, w, ev).Some? && Step(cfg, w, ev).value.pc.Stopped?
    ensures ev.ReceiveClosed? || ev == CtxCheck(true)
  {
    hide TxsOf, Retryable;
  }

  lemma WorkKeepsStops(env: Env, s: State, p: nat, ev: Event)
    requires StopsOk(s) && WorkNext(env, s, p, ev).Some?
    ensures StopsOk(WorkNext(env, s, p, ev).value)
  {
    var s' := WorkNext(env, s, p, ev).value;
    WorkShape(env, s, p, ev);
    hide Step, Effect, CommittedAfter;
    if s'.parts[p].worker.value.pc.Stopped? {
      Stops(env.cfg, s.parts[p].worker.value, ev);
    }
    assert forall q :: 0 <= q < |s.parts| ==> StopOk(Cancelled(s), s.parts[q]);
  }

  lemma NextKeepsStops(env: Env, s: State, a: Action)
    requires ChannelsOk(s) && StopsOk(s) && Next(env, s, a).Some?
    ensures StopsOk(Next(env, s, a).value)
  {
    hide WorkNext;
    if a.Work? {
      WorkKeepsStops(env, s, a.p, a.ev);
    } else {
      assert forall q :: 0 <= q < |s.parts| ==> StopOk(Cancelled(s), s.parts[q]);
      assert !FreshWorker.pc.Stopped?;
    }
  }

  lemma {:induction false} EveryRunStops(env: Env, run: seq<Action>)
    requires EnvOk(env) && Reach(env, run).Some?
    ensures StopsOk(Reach(env, run).value)
  {
    if run != [] {
      hide Sound, StopsOk, Next;
      var before := run[..|run| - 1];
      EveryRunStops(env, before);
      EveryRun(env, before);
      SoundChannels(env, Reach(env, before).value);
      NextKeepsStops(env, Reach(env, before).value, run[|run| - 1]);
    }
  }

  lemma SoundChannels(env: Env, s: State)
    requires Sound(env, s)
    ensures ChannelsOk(s)
  {
  }

  // ---------------------------------------------------------------------------------------------------------
  // Workers never get stuck
  // ---------------------------------------------------------------------------------------------------------

  function HandleOffer(cfg: Config, h: HandlePc, m: Messages.Msg, cancelled: bool): Event {
    match h
    case ServiceCall(_) => Service(TxOf(cfg, m), if cancelled then Refused(Canceled, false) else Stored)
    case DlqCall(reason) => WriteDlq(m, reason, if cfg.hasWriter then Written else NotConfigured)
    case CommitCall => Commit([m], Done)
    case _ => CtxCheck(cancelled)
  }

  /** What a worker does next when its calls succeed as far as the context allows. */
  function Offer(cfg: Config, w: Worker, queue: seq<Messages.Msg>, closed: bool, cancelled: bool): Event {
    match w.pc
    case Select => if queue != [] then Receive(queue[0]) else if closed then ReceiveClosed else Tick
    case FlushEnter => Add(|w.batch|)
    case BulkCall(_) => BulkService(TxsOf(cfg, w.batch), if cancelled then Refused(Canceled, false) else Stored)
    case BulkCommit => Commit(w.batch, Done)
    case FallbackEnter => Add(-|w.batch|)
    case FallbackLoop(i) => Add(if i < |w.batch| then 1 else |w.batch|)
    case FlushExit => Add(-|w.batch|)
    case RejectEnter(_) => Add(1)
    case Handle(h, m, _) => HandleOffer(cfg, h, m, cancelled)
    case HandleExit(_) => Add(-1)
    case _ => CtxCheck(cancelled)
  }

  lemma OfferIsStep(cfg: Config, w: Worker, queue: seq<Messages.Msg>, closed: bool, cancelled: bool)
    requires WorkerOk(cfg, w) && !w.pc.Stopped?
    ensures Step(cfg, w, Offer(cfg, w, queue, closed, cancelled)).Some?
  {
    hide TxsOf, Retryable, BeginFlush;
    if w.pc.Handle? {
      HandleOfferIsStep(cfg, w, w.pc.h, w.pc.m, w.pc.caller, cancelled);
      hide HandleStep, HandleOffer;
    }
  }

  lemma HandleOfferIsStep(cfg: Config, w: Worker, h: HandlePc, m: Messages.Msg, caller: Caller, cancelled: bool)
    ensures HandleStep(cfg, w, h, m, caller, HandleOffer(cfg, h, m, cancelled)).Some?
  {
    hide TxOf, Retryable, AfterProcessError;
  }

  /** What worker p does next in a state. */
  function NextOf(env: Env, s: State, p: nat): Event
    requires p < |s.parts| && s.parts[p].worker.Some?
  {
    var part := s.parts[p];
    Offer(env.cfg, part.worker.value, part.queue, part.closed > 0, Cancelled(s))
  }

  lemma CanceledIsUnmixed()
    ensures !Mixed(Canceled)
  {
    SingleChainIsNotMixed(Canceled, Canceled);
  }

  lemma OfferIsAdmitted(env: Env, s: State, p: nat)
    requires p < |s.parts| && s.parts[p].worker.Some?
    ensures Admits(env, s, s.parts[p], NextOf(env, s, p))
  {
    CanceledIsUnmixed();
    hide TxsOf, TxOf, Mixed;
  }

  lemma OfferIsNext(env: Env, s: State, p: nat)
    requires EnvOk(env) && Sound(env, s) && p < |s.parts| && s.parts[p].worker.Some?
    requires !s.parts[p].worker.value.pc.Stopped?
    ensures WorkNext(env, s, p, NextOf(env, s, p)).Some?
  {
    hide Step, Admits, Sound, Offer;
    SoundWorker(env, s, p);
    var part := s.parts[p];
    OfferIsStep(env.cfg, part.worker.value, part.queue, part.closed > 0, Cancelled(s));
    OfferIsAdmitted(env, s, p);
  }

  lemma OfferIsBusy(cfg: Config, w: Worker, queue: seq<Messages.Msg>, closed: bool, cancelled: bool)
    ensures Shutdown.IsIdle(w, Offer(cfg, w, queue, closed, cancelled))
       <==> w.pc.Select? && w.batch == [] && queue == [] && !closed
  {
    hide TxsOf, TxOf;
  }

  /**
   * No worker gets stuck: in every reachable state each worker that has not stopped can perform an interaction that is
   * not an idle tick, unless it waits at its select statement with nothing buffered, at an open and empty channel. With
   * ShutdownBoundsSteps, every worker stops after a cancellation as long as its calls return and the closing of its
   * channel is not delayed.
   */
  lemma WorkerNeverStuck(env: Env, run: seq<Action>, p: nat) returns (ev: Event)
    requires EnvOk(env) && Reach(env, run).Some?
    requires var s := Reach(env, run).value;
             p < |s.parts| && s.parts[p].worker.Some? && !s.parts[p].worker.value.pc.Stopped?
    ensures WorkNext(env, Reach(env, run).value, p, ev).Some?
    ensures var part := Reach(env, run).value.parts[p];
            var w := part.worker.value;
            Shutdown.IsIdle(w, ev) <==> w.pc.Select? && w.batch == [] && part.queue == [] && part.closed == 0
  {
    EveryRun(env, run);
    var s := Reach(env, run).value;
    hide Reach, Sound, WorkNext, Offer, Shutdown.IsIdle;
    ev := NextOf(env, s, p);
    OfferIsNext(env, s, p);
    OfferIsBusy(env.cfg, s.parts[p].worker.value, s.parts[p].queue, s.parts[p].closed > 0, Cancelled(s));
  }

  // ---------------------------------------------------------------------------------------------------------
  // How far a worker is from rest, while its calls succeed
  // ---------------------------------------------------------------------------------------------------------

  /** From the end of a flush on. */
  function AfterFlush(w: Worker): nat {
    if w.ret.ToReject? then 10 else 2
  }

  function AtFallback(w: Worker, i: nat): nat {
    (if i < |w.batch| then 6 * (|w.batch| - i) else 0) + 1 + AfterFlush(w)
  }

  function AfterHandle(w: Worker, caller: Caller): nat {
    match caller
    case FromFallback(i) => 1 + AtFallback(w, i + 1)
    case FromReject => 2
  }

  function InHandle(h: HandlePc): nat {
    match h
    case ServiceCall(_) => 3
    case ServiceFailed(_, _) => 5
    case DlqCall(_) => 3
    case DlqFailed(_) => 4
    case CommitCall => 2
    case CommitFailed => 3
  }

  /** Interactions until the worker has stopped at a closed and empty channel, or more. */
  function Rank(w: Worker): nat {
    match w.pc
    case Select => if w.batch == [] then 1 else 6
    case Received(_) => 14
    case FlushEnter => 3 + AfterFlush(w)
    case BulkCall(_) => 2 + AfterFlush(w)
    case BulkFailed(_, _) => 6 * |w.batch| + 5 + AfterFlush(w)
    case BulkCommit => 1 + AfterFlush(w)
    case BulkCommitFailed => 2 + AfterFlush(w)
    case FallbackEnter => 6 * |w.batch| + 2 + AfterFlush(w)
    case FallbackLoop(i) => AtFallback(w, i)
    case FlushExit => AfterFlush(w)
    case RejectRecheck(_) => 8
    case RejectEnter(_) => 7
    case Handle(h, _, caller) => InHandle(h) + AfterHandle(w, caller)
    case HandleExit(caller) => AfterHandle(w, caller)
    case Stopped => 0
  }

  function ToGo(w: Worker, queue: seq<Messages.Msg>): nat {
    14 * |queue| + Rank(w)
  }

  lemma HandleRank(cfg: Config, w: Worker, h: HandlePc, m: Messages.Msg, caller: Caller)
    requires w.pc == Handle(h, m, caller)
    requires HandleStep(cfg, w, h, m, caller, HandleOffer(cfg, h, m, false)).Some?
    ensures var w' := HandleStep(cfg, w, h, m, caller, HandleOffer(cfg, h, m, false)).value;
            && w'.batch == w.batch && w'.ret == w.ret
            && (w'.pc == HandleExit(caller)
                || (w'.pc.Handle? && w'.pc.caller == caller && InHandle(w'.pc.h) < InHandle(h)))
  {
    hide TxOf, Retryable, IsContextError;
  }

  lemma BulkRank(cfg: Config, w: Worker, ev: Event)
    requires WorkerOk(cfg, w) && InBulk(w.pc) && BulkStep(cfg, w, ev).Some? && ev == Offer(cfg, w, [], false, false)
    ensures Rank(BulkStep(cfg, w, ev).value) < Rank(w)
  {
    hide TxsOf, Retryable;
  }

  lemma FrameRank(cfg: Config, w: Worker, ev: Event)
    requires WorkerOk(cfg, w) && FrameStep(cfg, w, ev).Some? && ev == Offer(cfg, w, [], false, false)
    ensures Rank(FrameStep(cfg, w, ev).value) < Rank(w)
  {
    hide HandleOffer;
  }

  lemma SelectRank(cfg: Config, w: Worker, queue: seq<Messages.Msg>, closed: bool)
    requires Normalized(cfg) && WorkerOk(cfg, w) && (w.pc.Select? || w.pc.Received?)
    requires w.pc.Select? && w.batch == [] && queue == [] ==> closed
    ensures var ev := Offer(cfg, w, queue, closed, false);
            && Step(cfg, w, ev).Some?
            && Rank(Step(cfg, w, ev).value) < (if ev.Receive? then 14 else 0) + Rank(w)
  {
    hide HandleStep, BulkStep, FrameStep, HandleOffer, TxsOf;
  }

  /** Away from the select statement the channel does not matter. */
  lemma OfferElsewhere(cfg: Config, w: Worker, queue: seq<Messages.Msg>, closed: bool, cancelled: bool)
    requires !w.pc.Select?
    ensures Offer(cfg, w, queue, closed, cancelled) == Offer(cfg, w, [], false, cancelled)
    ensures !Offer(cfg, w, queue, closed, cancelled).Receive?
  {
    hide TxsOf;
  }

  /** Every such interaction but an idle tick brings the worker nearer. */
  lemma RankFalls(cfg: Config, w: Worker, queue: seq<Messages.Msg>, closed: bool)
    requires Normalized(cfg) && WorkerOk(cfg, w) && Step(cfg, w, Offer(cfg, w, queue, closed, false)).Some?
    requires w.pc.Select? && w.batch == [] && queue == [] ==> closed
    ensures Rank(Step(cfg, w, Offer(cfg, w, queue, closed, false)).value)
            < (if Offer(cfg, w, queue, closed, false).Receive? then 14 else 0) + Rank(w)
  {
    if w.pc.Select? || w.pc.Received? {
      SelectRank(cfg, w, queue, closed);
      hide Offer, Rank, Step;
    } else {
      OfferElsewhere(cfg, w, queue, closed, false);
      if w.pc.Handle? {
        HandleRank(cfg, w, w.pc.h, w.pc.m, w.pc.caller);
        hide HandleStep, HandleOffer, InHandle, AtFallback;
      } else {
        hide Offer, Rank, BulkStep, FrameStep;
        if InBulk(w.pc) {
          BulkRank(cfg, w, Offer(cfg, w, [], false, false));
        } else {
          FrameRank(cfg, w, Offer(cfg, w, [], false, false));
        }
      }
    }
  }

  /** What an interaction of worker p leaves alone. */
  lemma WorkFrame(env: Env, s: State, p: nat, ev: Event)
    requires WorkNext(env, s, p, ev).Some?
    ensures var s' := WorkNext(env, s, p, ev).value;
            && p < |s.parts| == |s'.parts| && s'.parts[p].worker.Some? && s'.parts == s.parts[p := s'.parts[p]]
            && s'.loop == s.loop && s'.parts[p].position == s.parts[p].position
            && s'.parts[p].delivered == s.parts[p].delivered && s'.parts[p].closed == s.parts[p].closed
            && s'.parts[p].queue == (if ev.Receive? then s.parts[p].queue[1..] else s.parts[p].queue)
            && (ev.Receive? ==> s.parts[p].queue != [])
            && ((ev.WriteDlq? ==> !ev.dlqResult.NotConfigured?) || Cancelled(s) ==> s'.cancel == s.cancel)
  {
    hide Step, Effect, CommittedAfter;
  }

  // ---------------------------------------------------------------------------------------------------------
  // A graceful shutdown
  // ---------------------------------------------------------------------------------------------------------

  /** How far worker p is from having stopped. */
  function StopsIn(s: State, p: nat): nat {
    if p >= |s.parts| || s.parts[p].worker.None? then 0
    else if Cancelled(s) then Shutdown.StepsLeft(s.parts[p].worker.value)
    else ToGo(s.parts[p].worker.value, s.parts[p].queue)
  }

  lemma NearerToStop(env: Env, s: State, p: nat)
    requires EnvOk(env) && Sound(env, s) && p < |s.parts| && s.parts[p].worker.Some? && s.parts[p].closed > 0
    requires !s.parts[p].worker.value.pc.Stopped?
    ensures WorkNext(env, s, p, NextOf(env, s, p)).Some?
    ensures var s' := WorkNext(env, s, p, NextOf(env, s, p)).value;
            (Cancelled(s') && !Cancelled(s)) || (Cancelled(s') == Cancelled(s) && StopsIn(s', p) < StopsIn(s, p))
  {
    var ev := NextOf(env, s, p);
    var part := s.parts[p];
    hide Sound, Step, Shutdown.StepsLeft, Rank, Shutdown.CallsLeft, Offer;
    OfferIsNext(env, s, p);
    OfferIsBusy(env.cfg, part.worker.value, part.queue, part.closed > 0, Cancelled(s));
    hide Shutdown.IsIdle;
    WorkShape(env, s, p, ev);
    WorkFrame(env, s, p, ev);
    hide WorkNext;
    if Cancelled(s) {
      Shutdown.CancelledWork(env, s, p, ev);
    } else {
      SoundWorker(env, s, p);
      RankFalls(env.cfg, part.worker.value, part.queue, part.closed > 0);
    }
  }

  predicate OnlyWorks(more: seq<Action>, p: nat) {
    forall i :: 0 <= i < |more| ==> more[i].Work? && more[i].p == p
  }

  lemma {:induction false} WindDown(env: Env, s: State, p: nat) returns (more: seq<Action>)
    requires EnvOk(env) && Sound(env, s) && p < |s.parts| && s.parts[p].worker.Some? && s.parts[p].closed > 0
    ensures OnlyWorks(more, p) && RunFrom(env, s, more).Some?
    ensures var s' := RunFrom(env, s, more).value;
            && s'.loop == s.loop && |s'.parts| == |s.parts| && s'.parts == s.parts[p := s'.parts[p]]
            && s'.parts[p].worker.Some? && s'.parts[p].worker.value.pc.Stopped?
            && s'.parts[p].closed == s.parts[p].closed
    decreases !Cancelled(s), StopsIn(s, p)
  {
    hide Sound, StopsIn, WorkNext, NextOf;
    if s.parts[p].worker.value.pc.Stopped? {
      more := [];
      assert s.parts == s.parts[p := s.parts[p]];
    } else {
      var ev := NextOf(env, s, p);
      NearerToStop(env, s, p);
      WorkFrame(env, s, p, ev);
      var s' := WorkNext(env, s, p, ev).value;
      NextKeepsSound(env, s, Work(p, ev));
      var rest := WindDown(env, s', p);
      more := [Work(p, ev)] + rest;
      RunPrepend(env, s, Work(p, ev), rest);
    }
  }

  /** The workers before the n-th stop, one after the other. */
  lemma {:induction false} AllWindDown(env: Env, s: State, n: nat) returns (more: seq<Action>)
    requires EnvOk(env) && Sound(env, s) && n <= |s.parts|
    requires forall p :: 0 <= p < |s.parts| && s.parts[p].worker.Some? ==> s.parts[p].closed > 0
    ensures (forall i :: 0 <= i < |more| ==> more[i].Work?) && RunFrom(env, s, more).Some?
    ensures var s' := RunFrom(env, s, more).value;
            && Sound(env, s') && s'.loop == s.loop && |s'.parts| == |s.parts|
            && (forall p :: 0 <= p < |s.parts| && s'.parts[p].worker.Some? ==> s'.parts[p].closed > 0)
            && (forall p :: 0 <= p < n && s'.parts[p].worker.Some? ==> s'.parts[p].worker.value.pc.Stopped?)
  {
    hide Sound, Next;
    if n == 0 {
      more := [];
    } else {
      var first := AllWindDown(env, s, n - 1);
      var s1 := RunFrom(env, s, first).value;
      if s1.parts[n - 1].worker.Some? {
        var last := WindDown(env, s1, n - 1);
        RunKeepsSound(env, s1, last);
        RunConcat(env, s, first, last);
        hide RunFrom;
        more := first + last;
      } else {
        more := first;
      }
    }
  }

  lemma ShutsDown(env: Env, s: State) returns (more: seq<Action>)
    requires EnvOk(env) && Sound(env, s) && MustEnd(s) && !s.loop.Finished?
    ensures forall i :: 0 <= i < |more| ==> more[i].Leave? || more[i].Close? || more[i].BeginDrain? || more[i].Work?
    ensures RunFrom(env, s, more).Some?
    ensures var s' := RunFrom(env, s, more).value;
            && s'.loop.Draining? && AllStopped(s') && s'.inflight == 0
  {
    SoundChannels(env, s);
    hide Sound, ChannelsOk, Started, MustEnd;
    var drain := StartDrains(env, s);
    RunKeepsSound(env, s, drain);
    hide RunFrom;
    var stops := AllWindDown(env, Drained(s), |s.parts|);
    RunConcat(env, s, drain, stops);
    more := drain + stops;
    NothingInFlight(env, RunFrom(env, s, more).value);
  }

  /**
   * A graceful shutdown is always possible: from every reachable state in which Start has to end, it can end with every
   * worker stopped before the drain is over, and then nothing is in flight.
   */
  lemma GracefulShutdown(env: Env, run: seq<Action>) returns (more: seq<Action>)
    requires EnvOk(env) && Reach(env, run).Some? && !Reach(env, run).value.loop.Finished?
    requires var s := Reach(env, run).value; s.loop.Fetching? || s.loop.Holding? ==> Cancelled(s)
    ensures more != [] && more[|more| - 1] == EndDrain
    ensures forall i :: 0 <= i < |more| - 1 ==> more[i].Leave? || more[i].Close? || more[i].BeginDrain? || more[i].Work?
    ensures RunFrom(env, Reach(env, run).value, more).Some?
    ensures var s' := RunFrom(env, Reach(env, run).value, more).value;
            && s'.loop.Finished? && AllStopped(s') && s'.inflight == 0
  {
    EveryRun(env, run);
    var s := Reach(env, run).value;
    hide Reach, Sound, RunFrom;
    var stops := ShutsDown(env, s);
    RunConcat(env, s, stops, [EndDrain]);
    RunOne(env, RunFrom(env, s, stops).value, EndDrain);
    more := stops + [EndDrain];
  }

  lemma NothingInFlight(env: Env, s: State)
    requires EnvOk(env) && Sound(env, s) && AllStopped(s)
    ensures s.inflight == 0
  {
    InFlightOfShares(env, s);
  }
}
