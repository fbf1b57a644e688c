/** No dead ends: whatever has happened, what was delivered can be committed, and the rest of the log consumed. */
module Recovery {
  import opened Base
  import Commits
  import Exposure
  import opened Liveness
  import Messages
  import opened NoLoss
  import opened Pipeline
  import opened Protocol
  import opened Worker
  import opened World

  // ---------------------------------------------------------------------------------------------------------
  // What was delivered can be committed
  // ---------------------------------------------------------------------------------------------------------

  /** The worker needs no dead-letter writer: there is one, or all it has and gets is valid and nothing has failed. */
  predicate NeedsNoLetters(cfg: Config, w: Worker, queue: seq<Messages.Msg>) {
    || cfg.hasWriter
    || (&& AllValid(cfg, queue) && AllValid(cfg, Pending(w))
        && (|| w.pc.Select? || w.pc.Received? || w.pc.FlushEnter? || w.pc.BulkCall? || w.pc.BulkCommit?
            || w.pc.FlushExit?))
  }

  lemma SettlingNeedsNoLetters(cfg: Config, w: Worker, queue: seq<Messages.Msg>)
    requires Normalized(cfg) && WorkerOk(cfg, w) && NeedsNoLetters(cfg, w, queue)
    requires Step(cfg, w, Offer(cfg, w, queue, false, false)).Some?
    ensures var ev := Offer(cfg, w, queue, false, false);
            && (ev.WriteDlq? ==> !ev.dlqResult.NotConfigured?) && !ev.ReceiveClosed? && ev != CtxCheck(true)
            && NeedsNoLetters(cfg, Step(cfg, w, ev).value, if ev.Receive? && queue != [] then queue[1..] else queue)
  {
    hide HandleStep, TxsOf;
    if !cfg.hasWriter && Pending(w) != [] {
      assert Valid(cfg, Pending(w)[0]);
    }
  }

  /** Start is in its loop on a live context. */
  ghost predicate Underway(env: Env, s: State) {
    && Sound(env, s) && Commits.AllNear(s) && !Cancelled(s) && (s.loop.Fetching? || s.loop.Holding?)
  }

  /** Nothing is delivered to the partition that is not committed. */
  predicate IsSettled(part: Part) {
    && part.queue == [] && part.committed == part.delivered
    && (part.worker.Some? ==> part.worker.value.pc.Select? && part.worker.value.batch == [])
  }

  lemma UnderwayPart(env: Env, s: State, p: nat)
    requires EnvOk(env) && Underway(env, s) && p < |s.parts|
    ensures p < |env.logs| && FlowOk(env, p, s.parts[p]) && HeldOk(env, s.loop, p, s.parts[p])
    ensures s.parts[p].closed == 0 && Commits.NearFrontier(false, s.parts[p])
  {
    hide FlowOk, HeldOk, Commits.NearFrontier;
  }

  /** A worker with nothing in hand has committed what was delivered. */
  lemma RestIsSettled(env: Env, s: State, p: nat)
    requires EnvOk(env) && Underway(env, s) && p < |s.parts| && s.parts[p].worker.Some? && s.parts[p].queue == []
    requires s.parts[p].worker.value.pc.Select? && s.parts[p].worker.value.batch == []
    ensures IsSettled(s.parts[p])
  {
    UnderwayPart(env, s, p);
    hide Underway, Slice;
    assert Flow(s.parts[p]) == [];
  }

  /** While the context is live and the channels are open, no worker is about to lose anything. */
  lemma CalmWorkSafe(env: Env, s: State, p: nat, ev: Event)
    requires EnvOk(env) && Underway(env, s) && AllSafe(env, s) && WorkNext(env, s, p, ev).Some?
    ensures AllSafe(env, WorkNext(env, s, p, ev).value)
  {
    var s' := WorkNext(env, s, p, ev).value;
    WorkShape(env, s, p, ev);
    forall q | 0 <= q < |s.parts|
      ensures SafePart(env, s.world, Cancelled(s), q, s.parts[q]) && s.parts[q].closed == 0
    {
    }
    hide WorkNext, SafePart, Attached, Effect, OrderOk, Step;
    assert Attached(env, s.world, p, s.parts[p]) by { OpenIsAttached(env, s.world, p, s.parts[p]); }
    AttachedWorkSafe(env, s, p, ev);
    EffectGrows(s.world, ev);
    forall q | 0 <= q < |s'.parts| && q != p
      ensures SafePart(env, s'.world, Cancelled(s'), q, s'.parts[q])
    {
      SafePartStays(env, s.world, s'.world, Cancelled(s), Cancelled(s'), q, s.parts[q]);
    }
  }

  lemma OpenIsAttached(env: Env, world: World, p: nat, part: Part)
    requires p < |env.logs| && SafePart(env, world, false, p, part) && part.closed == 0
    ensures Attached(env, world, p, part)
  {
    hide Attached, Inert, SafeBelow;
  }

  lemma SettleStep(env: Env, s: State, p: nat)
    requires EnvOk(env) && Underway(env, s) && p < |s.parts| && s.parts[p].worker.Some?
    requires var part := s.parts[p];
             var w := part.worker.value;
             && !w.pc.Stopped? && NeedsNoLetters(env.cfg, w, part.queue)
             && !(w.pc.Select? && w.batch == [] && part.queue == [])
    ensures var ev := NextOf(env, s, p);
            && WorkNext(env, s, p, ev).Some?
            && var s' := WorkNext(env, s, p, ev).value;
               && Underway(env, s') && s'.loop == s.loop
               && |s'.parts| == |s.parts| && s'.parts == s.parts[p := s'.parts[p]]
               && (AllSafe(env, s) ==> AllSafe(env, s'))
               && var part, part' := s.parts[p], s'.parts[p];
                  && part'.position == part.position && part'.delivered == part.delivered && part'.worker.Some?
                  && !part'.worker.value.pc.Stopped? && NeedsNoLetters(env.cfg, part'.worker.value, part'.queue)
                  && ToGo(part'.worker.value, part'.queue) < ToGo(part.worker.value, part.queue)
  {
    var part := s.parts[p];
    var w := part.worker.value;
    var ev := NextOf(env, s, p);
    UnderwayPart(env, s, p);
    hide OrderOk, InFlightOk, Step, NeedsNoLetters, Commits.AllNear, Rank, Offer, AllSafe, ChannelsOk, FlowOk, HeldOk,
         Commits.NearFrontier, Sound;
    OfferIsNext(env, s, p);
    SoundWorker(env, s, p);
    WorkShape(env, s, p, ev);
    WorkFrame(env, s, p, ev);
    RankFalls(env.cfg, w, part.queue, false);
    SettlingNeedsNoLetters(env.cfg, w, part.queue);
    StaysUp(env.cfg, w, ev);
    NextKeepsSound(env, s, Work(p, ev));
    Commits.NextKeepsNear(env, s, Work(p, ev));
    if AllSafe(env, s) {
      CalmWorkSafe(env, s, p, ev);
    }
    hide WorkNext;
  }

  lemma StaysUp(cfg: Config, w: Worker, ev: Event)
    requires Step(cfg, w, ev).Some? && !ev.ReceiveClosed? && ev != CtxCheck(true)
    ensures !Step(cfg, w, ev).value.pc.Stopped?
  {
    hide Step;
    if Step(cfg, w, ev).value.pc.Stopped? {
      Stops(cfg, w, ev);
    }
  }

  /** By its own interactions alone worker p finishes with all that was delivered to it. */
  lemma {:induction false} Settle(env: Env, s: State, p: nat) returns (more: seq<Action>, s': State)
    requires EnvOk(env) && Underway(env, s) && p < |s.parts| && s.parts[p].worker.Some?
    requires !s.parts[p].worker.value.pc.Stopped?
    requires NeedsNoLetters(env.cfg, s.parts[p].worker.value, s.parts[p].queue)
    ensures OnlyWorks(more, p) && RunFrom(env, s, more) == Some(s')
    ensures Underway(env, s') && s'.loop == s.loop && |s'.parts| == |s.parts| && s'.parts == s.parts[p := s'.parts[p]]
    ensures IsSettled(s'.parts[p]) && s'.parts[p].worker.Some?
    ensures s'.parts[p].position == s.parts[p].position && s'.parts[p].delivered == s.parts[p].delivered
    ensures AllSafe(env, s) ==> AllSafe(env, s')
    decreases ToGo(s.parts[p].worker.value, s.parts[p].queue)
  {
    hide Underway, AllSafe, NextOf, WorkNext, ToGo, NeedsNoLetters;
    var w := s.parts[p].worker.value;
    if w.pc.Select? && w.batch == [] && s.parts[p].queue == [] {
      RestIsSettled(env, s, p);
      more, s' := [], s;
      assert s.parts == s.parts[p := s.parts[p]];
    } else {
      SettleStep(env, s, p);
      hide IsSettled;
      var a := Work(p, NextOf(env, s, p));
      var rest;
      rest, s' := Settle(env, Next(env, s, a).value, p);
      more := [a] + rest;
      RunPrepend(env, s, a, rest);
    }
  }

  /**
   * No worker is in a dead end: from every reachable state with a live context, Start in its loop and a dead-letter
   * writer, each worker can, by its own interactions alone, come to rest with everything committed that was delivered
   * to it.
   */
  lemma WorkerCanSettle(env: Env, run: seq<Action>, p: nat) returns (more: seq<Action>)
    requires EnvOk(env) && Reach(env, run).Some? && env.cfg.hasWriter && !Cancelled(Reach(env, run).value)
    requires var s := Reach(env, run).value;
             (s.loop.Fetching? || s.loop.Holding?) && p < |s.parts| && s.parts[p].worker.Some?
    ensures forall i :: 0 <= i < |more| ==> more[i].Work? && more[i].p == p
    ensures RunFrom(env, Reach(env, run).value, more).Some?
    ensures var s := Reach(env, run).value;
            var s' := RunFrom(env, s, more).value;
            && p < |s'.parts| && s'.parts[p].queue == [] && s'.parts[p].worker.Some?
            && s'.parts[p].worker.value.pc.Select? && s'.parts[p].worker.value.batch == []
            && s'.parts[p].committed == s'.parts[p].delivered == s.parts[p].delivered
  {
    EveryRun(env, run);
    EveryRunStops(env, run);
    Commits.EveryRunNear(env, run);
    var s := Reach(env, run).value;
    hide Reach, Sound, Commits.AllNear;
    assert StopOk(false, s.parts[p]);
    assert Underway(env, s);
    UnderwayPart(env, s, p);
    hide RunFrom, FlowOk, HeldOk, Commits.NearFrontier, Underway, StopsOk;
    var s';
    more, s' := Settle(env, s, p);
  }

  // ---------------------------------------------------------------------------------------------------------
  // The rest of the log can be consumed
  // ---------------------------------------------------------------------------------------------------------

  /** Everything fetched is committed, and everything is at rest. */
  ghost predicate Rested(env: Env, s: State) {
    && Underway(env, s) && s.loop.Fetching?
    && forall p :: 0 <= p < |s.parts| ==> IsSettled(s.parts[p]) && s.parts[p].position == s.parts[p].committed
  }

  /** The message at offset o of partition p can be finished with: it is valid, or there is a dead-letter writer. */
  predicate CanFinish(env: Env, p: nat, o: nat)
    requires p < |env.logs| && o < |env.logs[p]|
  {
    env.cfg.hasWriter || Valid(env.cfg, MsgAt(env, p, o))
  }

  lemma Deliver(env: Env, s: State, p: nat) returns (s': State)
    requires EnvOk(env) && Rested(env, s) && p < |s.parts| && s.parts[p].position < |env.logs[p]|
    requires CanFinish(env, p, s.parts[p].position)
    ensures RunFrom(env, s, [Fetch(p), Send]) == Some(s')
    ensures Underway(env, s') && s'.loop.Fetching? && |s'.parts| == |s.parts| && s'.parts == s.parts[p := s'.parts[p]]
    ensures AllSafe(env, s) ==> AllSafe(env, s')
    ensures var part' := s'.parts[p];
            && part'.position == part'.delivered == s.parts[p].position + 1
            && part'.worker.Some? && !part'.worker.value.pc.Stopped?
            && NeedsNoLetters(env.cfg, part'.worker.value, part'.queue)
  {
    DeliverShape(env, s, p);
    var s1 := FetchNext(env, s, p).value;
    s' := SendNext(s1).value;
    assert [Fetch(p), Send] == [Fetch(p)] + [Send];
    RunPrepend(env, s, Fetch(p), [Send]);
    RunOne(env, s1, Send);
    hide AllSafe, RunFrom, Underway, FetchNext, SendNext, IsSettled, CanFinish, NeedsNoLetters;
    LoopKeepsUnderway(env, s, Fetch(p));
    LoopKeepsUnderway(env, s1, Send);
  }

  lemma DeliverShape(env: Env, s: State, p: nat)
    requires EnvOk(env) && Rested(env, s) && p < |s.parts| && s.parts[p].position < |env.logs[p]|
    requires CanFinish(env, p, s.parts[p].position)
    ensures FetchNext(env, s, p).Some? && FetchNext(env, s, p).value.loop.Holding?
    ensures SendNext(FetchNext(env, s, p).value).Some?
    ensures var s' := SendNext(FetchNext(env, s, p).value).value;
            && s'.loop.Fetching? && |s'.parts| == |s.parts| && s'.parts == s.parts[p := s'.parts[p]]
            && var part' := s'.parts[p];
               && part'.position == part'.delivered == s.parts[p].position + 1
               && part'.worker.Some? && !part'.worker.value.pc.Stopped?
               && NeedsNoLetters(env.cfg, part'.worker.value, part'.queue)
  {
    UnderwayPart(env, s, p);
    hide Underway, FlowOk, HeldOk, Commits.NearFrontier, Valid;
    assert IsSettled(s.parts[p]) && s.parts[p].position == s.parts[p].committed;
  }

  /** The actions of the fetch loop keep what this section keeps. */
  lemma LoopKeepsUnderway(env: Env, s: State, a: Action)
    requires EnvOk(env) && Underway(env, s) && Next(env, s, a).Some? && (a.Fetch? || a.Send?)
    requires Next(env, s, a).value.loop.Fetching? || Next(env, s, a).value.loop.Holding?
    ensures Underway(env, Next(env, s, a).value)
    ensures AllSafe(env, s) ==> AllSafe(env, Next(env, s, a).value)
  {
    var s' := Next(env, s, a).value;
    assert s'.cancel == s.cancel;
    hide Next, Sound, Commits.AllNear, SafePart, SameProgress;
    NextKeepsSound(env, s, a);
    Commits.NextKeepsNear(env, s, a);
    LoopSameProgress(env, s, a);
    if AllSafe(env, s) {
      forall p | 0 <= p < |s'.parts|
        ensures SafePart(env, s'.world, Cancelled(s'), p, s'.parts[p])
      {
        SameProgressStaysSafe(env, s.world, Cancelled(s), p, s.parts[p], s'.parts[p]);
      }
    }
  }

  /** One message more: fetched, delivered, and finished with. */
  lemma ConsumeOne(env: Env, s: State, p: nat) returns (more: seq<Action>, s': State)
    requires EnvOk(env) && Rested(env, s) && p < |s.parts| == |env.logs| && s.parts[p].position < |env.logs[p]|
    requires CanFinish(env, p, s.parts[p].position)
    ensures RunFrom(env, s, more) == Some(s')
    ensures Rested(env, s') && |s'.parts| == |s.parts| && s'.parts == s.parts[p := s'.parts[p]]
    ensures s'.parts[p].position == s.parts[p].position + 1
    ensures AllSafe(env, s) ==> AllSafe(env, s')
  {
    var s1 := Deliver(env, s, p);
    hide *;
    var settle;
    settle, s' := Settle(env, s1, p);
    RunConcat(env, s, [Fetch(p), Send], settle);
    more := [Fetch(p), Send] + settle;
    ChangedTwice(s.parts, s1.parts, s'.parts, p);
    RestsAgain(env, s, s', p);
  }

  lemma ChangedTwice(parts: seq<Part>, parts1: seq<Part>, parts2: seq<Part>, p: nat)
    requires p < |parts| == |parts1| == |parts2|
    requires parts1 == parts[p := parts1[p]] && parts2 == parts1[p := parts2[p]]
    ensures parts2 == parts[p := parts2[p]]
  {
  }

  lemma RestsAgain(env: Env, s: State, s': State, p: nat)
    requires Rested(env, s) && Underway(env, s') && s'.loop.Fetching? && p < |s.parts| == |s'.parts|
    requires s'.parts == s.parts[p := s'.parts[p]]
    requires IsSettled(s'.parts[p]) && s'.parts[p].position == s'.parts[p].delivered
    ensures Rested(env, s')
  {
    hide Underway;
  }

  lemma {:induction false} ConsumePart(env: Env, s: State, p: nat) returns (more: seq<Action>, s': State)
    requires EnvOk(env) && Rested(env, s) && p < |s.parts| == |env.logs| && s.parts[p].position <= |env.logs[p]|
    requires forall o: nat :: s.parts[p].position <= o < |env.logs[p]| ==> CanFinish(env, p, o)
    ensures RunFrom(env, s, more) == Some(s')
    ensures Rested(env, s') && |s'.parts| == |s.parts| && s'.parts == s.parts[p := s'.parts[p]]
    ensures s'.parts[p].position == |env.logs[p]|
    ensures AllSafe(env, s) ==> AllSafe(env, s')
    decreases |env.logs[p]| - s.parts[p].position
  {
    hide Rested, AllSafe, CanFinish, Next;
    if s.parts[p].position == |env.logs[p]| {
      more, s' := [], s;
      assert s.parts == s.parts[p := s.parts[p]];
    } else {
      var first, s1 := ConsumeOne(env, s, p);
      hide RunFrom;
      var rest;
      rest, s' := ConsumePart(env, s1, p);
      RunConcat(env, s, first, rest);
      more := first + rest;
    }
  }

  /** Every message from the fetch positions on can be finished with. */
  ghost predicate CanFinishAll(env: Env, s: State) {
    && |s.parts| == |env.logs|
    && forall p, o: nat :: 0 <= p < |s.parts| && s.parts[p].position <= o < |env.logs[p]| ==> CanFinish(env, p, o)
  }

  lemma {:induction false} ConsumeParts(env: Env, s: State, n: nat) returns (more: seq<Action>, s': State)
    requires EnvOk(env) && Rested(env, s) && CanFinishAll(env, s) && n <= |s.parts|
    ensures RunFrom(env, s, more) == Some(s')
    ensures Rested(env, s') && |s'.parts| == |s.parts|
    ensures forall p :: 0 <= p < n ==> s'.parts[p].position == |env.logs[p]|
    ensures forall p :: n <= p < |s.parts| ==> s'.parts[p] == s.parts[p]
    ensures AllSafe(env, s) ==> AllSafe(env, s')
  {
    hide Rested, AllSafe, CanFinish, Next;
    if n == 0 {
      more, s' := [], s;
    } else {
      var first, s1 := ConsumeParts(env, s, n - 1);
      hide RunFrom;
      PositionInLog(env, s1, n - 1);
      var rest;
      rest, s' := ConsumePart(env, s1, n - 1);
      RunConcat(env, s, first, rest);
      more := first + rest;
    }
  }

  lemma PositionInLog(env: Env, s: State, p: nat)
    requires EnvOk(env) && Rested(env, s) && p < |s.parts|
    ensures p < |env.logs| && s.parts[p].position <= |env.logs[p]|
  {
    UnderwayPart(env, s, p);
    hide Flow, Slice;
  }

  lemma RestartRests(env: Env, s: State)
    requires EnvOk(env) && Sound(env, s)
    ensures Rested(env, RestartNext(s))
    ensures NothingLost(env, s) ==> AllSafe(env, RestartNext(s))
  {
    var s' := RestartNext(s);
    hide Sound, IsSettled, Commits.NearFrontier, SafePart, SafeBelow;
    NextKeepsSound(env, s, Restart);
    forall p | 0 <= p < |s'.parts|
      ensures Commits.NearFrontier(false, s'.parts[p]) && IsSettled(s'.parts[p])
      ensures NothingLost(env, s) ==> p < |env.logs| && SafePart(env, s'.world, false, p, s'.parts[p])
    {
      FreshIsSettled(env, s.world, p, s.parts[p].committed);
    }
  }

  lemma FreshIsSettled(env: Env, world: World, p: nat, committed: nat)
    ensures Commits.NearFrontier(false, FreshPart(committed)) && IsSettled(FreshPart(committed))
    ensures p < |env.logs| && SafeBelow(env, world, p, committed) ==>
              SafePart(env, world, false, p, FreshPart(committed))
  {
    hide SafeBelow;
    assert Frontier(FreshPart(committed)) == committed;
  }

  /** Every message of every log is committed. */
  predicate AllCommitted(env: Env, s: State) {
    |s.parts| == |env.logs| && forall p :: 0 <= p < |s.parts| ==> s.parts[p].committed == |env.logs[p]|
  }

  /** Every uncommitted message can be finished with. */
  ghost predicate CanFinishRest(env: Env, s: State) {
    && |s.parts| == |env.logs|
    && forall p, o: nat :: 0 <= p < |s.parts| && s.parts[p].committed <= o < |env.logs[p]| ==> CanFinish(env, p, o)
  }

  lemma ConsumeRest(env: Env, s: State) returns (more: seq<Action>, s': State)
    requires EnvOk(env) && Sound(env, s) && CanFinishRest(env, s)
    ensures RunFrom(env, s, more) == Some(s')
    ensures AllCommitted(env, s')
    ensures NothingLost(env, s) ==> NothingLost(env, s')
  {
    RestartRests(env, s);
    var s1 := RestartNext(s);
    RestCanFinish(env, s);
    assert Next(env, s, Restart) == Some(s1);
    hide *;
    var rest;
    rest, s' := ConsumeParts(env, s1, |s1.parts|);
    RunPrepend(env, s, Restart, rest);
    more := [Restart] + rest;
    RestedIsCommitted(env, s');
    if NothingLost(env, s) {
      SafeMeansNothingLost(env, s');
    }
  }

  lemma RestCanFinish(env: Env, s: State)
    requires CanFinishRest(env, s)
    ensures CanFinishAll(env, RestartNext(s)) && |RestartNext(s).parts| == |env.logs|
  {
    hide CanFinish;
  }

  lemma RestedIsCommitted(env: Env, s: State)
    requires Rested(env, s) && |s.parts| == |env.logs|
    requires forall p :: 0 <= p < |s.parts| ==> s.parts[p].position == |env.logs[p]|
    ensures AllCommitted(env, s)
  {
    hide Underway, IsSettled;
  }

  // ---------------------------------------------------------------------------------------------------------
  // Without a dead-letter writer
  // ---------------------------------------------------------------------------------------------------------

  lemma NextKeepsNoLetters(env: Env, s: State, a: Action)
    requires !env.cfg.hasWriter && s.world.dlq == [] && Next(env, s, a).Some?
    ensures Next(env, s, a).value.world.dlq == []
  {
    hide Step, CommittedAfter;
  }

  lemma {:induction false} NoLetters(env: Env, run: seq<Action>)
    requires !env.cfg.hasWriter && Reach(env, run).Some?
    ensures Reach(env, run).value.world.dlq == []
  {
    if run != [] {
      hide Next;
      NoLetters(env, run[..|run| - 1]);
      NextKeepsNoLetters(env, Reach(env, run[..|run| - 1]).value, run[|run| - 1]);
    }
  }

  /** Without a dead-letter writer no committed offset ever covers a rejected message. */
  lemma RejectedBlocks(env: Env, run: seq<Action>)
    requires EnvOk(env) && Reach(env, run).Some? && !env.cfg.hasWriter
    ensures var s := Reach(env, run).value;
            && |s.parts| == |env.logs|
            && forall p, o: nat :: 0 <= p < |s.parts| && o < s.parts[p].committed && o < |env.logs[p]| ==>
                                     Valid(env.cfg, MsgAt(env, p, o))
  {
    Exposure.UnexposedLosesNothing(env, run);
    NoLetters(env, run);
    var s := Reach(env, run).value;
    hide Reach, Valid;
    forall p, o: nat | 0 <= p < |s.parts| && o < s.parts[p].committed && o < |env.logs[p]|
      ensures Valid(env.cfg, MsgAt(env, p, o))
    {
      assert SafeBelow(env, s.world, p, s.parts[p].committed);
      assert Safe(env.cfg, s.world, MsgAt(env, p, o));
    }
  }

  /** No uncommitted message is a rejected one. */
  ghost predicate RestIsValid(env: Env, s: State) {
    forall p, o: nat :: 0 <= p < |env.logs| && p < |s.parts| && s.parts[p].committed <= o < |env.logs[p]| ==>
                          Valid(env.cfg, MsgAt(env, p, o))
  }

  /**
   * Recovery: whatever has happened, in whatever state the processes are, all logs can still be committed to their
   * ends, if and only if there is a dead-letter writer or no uncommitted message is a rejected one.
   */
  lemma RecoverableIff(env: Env, run: seq<Action>)
    requires EnvOk(env) && Reach(env, run).Some?
    ensures var s := Reach(env, run).value;
            (exists more :: RunFrom(env, s, more).Some? && AllCommitted(env, RunFrom(env, s, more).value))
            <==> env.cfg.hasWriter || RestIsValid(env, s)
  {
    EveryRun(env, run);
    var s := Reach(env, run).value;
    FinishRestIff(env, s);
    hide Reach, Sound, CanFinishRest, AllCommitted;
    if CanFinishRest(env, s) {
      var more, s' := ConsumeRest(env, s);
      assert RunFrom(env, s, more).Some? && AllCommitted(env, RunFrom(env, s, more).value);
    } else if more :| RunFrom(env, s, more).Some? && AllCommitted(env, RunFrom(env, s, more).value) {
      AllCommittedCanFinish(env, run, more);
    }
  }

  lemma FinishRestIff(env: Env, s: State)
    requires Sound(env, s)
    ensures CanFinishRest(env, s) <==> env.cfg.hasWriter || RestIsValid(env, s)
  {
    assert |s.parts| == |env.logs|;
    hide Sound, Valid;
    if CanFinishRest(env, s) && !env.cfg.hasWriter {
      forall p, o: nat | 0 <= p < |env.logs| && p < |s.parts| && s.parts[p].committed <= o < |env.logs[p]|
        ensures Valid(env.cfg, MsgAt(env, p, o))
      {
        assert CanFinish(env, p, o);
      }
    }
  }

  lemma {:induction false} AllCommittedCanFinish(env: Env, run: seq<Action>, more: seq<Action>)
    requires EnvOk(env) && Reach(env, run).Some? && RunFrom(env, Reach(env, run).value, more).Some?
    requires AllCommitted(env, RunFrom(env, Reach(env, run).value, more).value)
    requires |Reach(env, run).value.parts| == |env.logs|
    ensures CanFinishRest(env, Reach(env, run).value)
  {
    hide RunFrom, Valid;
    RunConcat(env, Init(env), run, more);
    if !env.cfg.hasWriter {
      RejectedBlocks(env, run + more);
    }
  }

  /**
   * In particular, with a dead-letter writer the rest of every log can always be consumed; and when nothing has been
   * lost up to then, every message of every log is stored or dead-lettered in the end.
   */
  lemma RecoverySavesAll(env: Env, run: seq<Action>) returns (more: seq<Action>)
    requires EnvOk(env) && Reach(env, run).Some? && env.cfg.hasWriter
    ensures RunFrom(env, Reach(env, run).value, more).Some?
    ensures var s, s' := Reach(env, run).value, RunFrom(env, Reach(env, run).value, more).value;
            && |s'.parts| == |env.logs|
            && (forall p :: 0 <= p < |env.logs| ==> s'.parts[p].committed == |env.logs[p]|)
            && (NothingLost(env, s) ==>
                  forall p, o: nat :: 0 <= p < |env.logs| && o < |env.logs[p]| ==>
                                        Safe(env.cfg, s'.world, MsgAt(env, p, o)))
  {
    EveryRun(env, run);
    var s := Reach(env, run).value;
    assert CanFinishRest(env, s);
    hide Reach, Sound, CanFinishRest, RunFrom, Safe;
    var s';
    more, s' := ConsumeRest(env, s);
    if NothingLost(env, s) {
      forall p, o: nat | 0 <= p < |env.logs| && o < |env.logs[p]| ensures Safe(env.cfg, s'.world, MsgAt(env, p, o)) {
        assert SafeBelow(env, s'.world, p, s'.parts[p].committed);
      }
    }
  }
}
