/**
 * partitionWorker and the methods it calls, as the loops and in-place buffers they are. Between any two interactions
 * of the worker the fetch loop, the other workers and the cancellation may act in any way the transition system of
 * Pipeline allows, and the worker's own interactions are steps of that system: whatever is proved of its runs holds of
 * these methods.
 */
module PartitionWorker {
  import opened Base
  import opened Errors
  import Domain
  import opened Messages
  import opened Worker
  import Settings
  import World
  import opened Pipeline

  /**
   * What the surroundings do at one interaction: first the others act, then a tick fires or not, and a call fails or
   * not, having been applied or not. When there are no choices left, the application is shut down.
   */
  datatype Choice = Choice(others: seq<Action>, tick: bool, failure: Option<Failure>, applied: bool)

  /** An error that is not retried and then taken for a shutdown. */
  type Failure = e: Error | !Mixed(e) witness Canceled

  const SHUTDOWN := Choice([CancelApp], false, Some(Canceled), false)

  /** What the select statement of the worker yields; Nothing when there are no choices left. */
  datatype Input = Message(m: Msg) | Ticked | ChannelClosed | Nothing

  /** An action of the same incarnation that is not this worker's. */
  predicate Foreign(p: nat, a: Action) {
    !a.Restart? && !(a.Work? && a.p == p)
  }

  /** The state after the others' actions, as far as they are possible. */
  function Meanwhile(env: Env, p: nat, s: State, others: seq<Action>): State {
    if others == [] then s
    else
      var before := Meanwhile(env, p, s, others[..|others| - 1]);
      var last := others[|others| - 1];
      if Foreign(p, last) && Next(env, before, last).Some? then Next(env, before, last).value else before
  }

  lemma NoneMeanwhile(env: Env, p: nat, s: State, others: seq<Action>)
    ensures Meanwhile(env, p, s, others[..0]) == s
  {
  }

  lemma MeanwhileNext(env: Env, p: nat, s: State, others: seq<Action>, i: nat)
    requires i < |others|
    ensures var before := Meanwhile(env, p, s, others[..i]);
            var next := Next(env, before, others[i]);
            Meanwhile(env, p, s, others[..i + 1]) == if Foreign(p, others[i]) && next.Some? then next.value else before
  {
    hide Next, Foreign;
    assert others[..i + 1][..i] == others[..i];
  }

  /** What the select statement of worker p yields: a tick that has fired, or else what its channel has. */
  function Yields(tick: bool, s: State, p: nat): Input {
    if tick || p >= |s.parts| then Ticked
    else if s.parts[p].queue != [] then Message(s.parts[p].queue[0])
    else if s.parts[p].closed > 0 then ChannelClosed
    else Ticked
  }

  function FirstChoice(script: seq<Choice>): Choice {
    if script == [] then SHUTDOWN else script[0]
  }

  // ---------------------------------------------------------------------------------------------------------
  // What is said about the worker's own interactions
  // ---------------------------------------------------------------------------------------------------------

  predicate IsServiceCall(ev: Event) {
    ev.Service? || ev.BulkService?
  }

  /** What worker p did in a run. */
  function Interactions(p: nat, run: seq<Action>): seq<Event> {
    if run == [] then []
    else
      var last := run[|run| - 1];
      Interactions(p, run[..|run| - 1]) + (if last.Work? && last.p == p then [last.ev] else [])
  }

  function ServiceCalls(own: seq<Event>): nat {
    if own == [] then 0
    else ServiceCalls(own[..|own| - 1]) + (if IsServiceCall(own[|own| - 1]) then 1 else 0)
  }

  /** The sum of the additions to the in-flight counter. */
  function NetAdded(own: seq<Event>): int {
    if own == [] then 0
    else NetAdded(own[..|own| - 1]) + (if own[|own| - 1].Add? then own[|own| - 1].delta else 0)
  }

  lemma Recorded(own: seq<Event>, ev: Event)
    ensures ServiceCalls(own + [ev]) == ServiceCalls(own) + (if IsServiceCall(ev) then 1 else 0)
    ensures NetAdded(own + [ev]) == NetAdded(own) + (if ev.Add? then ev.delta else 0)
  {
    assert (own + [ev])[..|own|] == own;
  }

  /** The message is stored, alone or with others, or dead-lettered. */
  predicate Delivers(cfg: Config, ev: Event, m: Msg) {
    || (ev.Service? && ev.tx == TxOf(cfg, m) && ev.result.Stored?)
    || (ev.BulkService? && TxOf(cfg, m) in ev.txs && ev.bulkResult.Stored?)
    || (ev.WriteDlq? && ev.letter == m && ev.dlqResult.Written?)
  }

  predicate Commits(ev: Event, m: Msg) {
    ev.Commit? && m in ev.msgs && ev.commitResult.Done?
  }

  /** Since a point of the history the message was delivered, and after that committed. */
  ghost predicate SettledSince(cfg: Config, own: seq<Event>, since: nat, m: Msg) {
    exists i, j :: since <= i < j < |own| && Delivers(cfg, own[i], m) && Commits(own[j], m)
  }

  ghost predicate DeliveredSince(cfg: Config, own: seq<Event>, since: nat, m: Msg) {
    exists i :: since <= i < |own| && Delivers(cfg, own[i], m)
  }

  /** Since a point of the history nothing was committed. */
  ghost predicate NoCommit(own: seq<Event>, since: nat) {
    forall j :: since <= j < |own| ==> !(own[j].Commit? && own[j].commitResult.Done?)
  }

  lemma NothingCommitted(own: seq<Event>)
    ensures NoCommit(own, |own|)
  {
  }

  lemma NoCommitNext(own: seq<Event>, own': seq<Event>, since: nat)
    requires NoCommit(own, since) && |own'| == |own| + 1 && own == own'[..|own|] && !own'[|own|].Commit?
    ensures NoCommit(own', since)
  {
  }

  // ---------------------------------------------------------------------------------------------------------
  // Steps of the transition system, seen from one worker
  // ---------------------------------------------------------------------------------------------------------

  ghost predicate Serves(env: Env, p: nat, s: State) {
    && p < |s.parts| && s.parts[p].worker.Some?
    && WorkerOk(env.cfg, s.parts[p].worker.value)
    && (s.fatal.Some? ==> Cancelled(s))
  }

  /** Whatever the others do, the worker stays where it is, and a cancellation stays. */
  lemma ForeignKeeps(env: Env, p: nat, s: State, a: Action)
    requires Serves(env, p, s) && Foreign(p, a) && Next(env, s, a).Some?
    ensures var s' := Next(env, s, a).value;
            Serves(env, p, s') && s'.parts[p].worker == s.parts[p].worker && (Cancelled(s) ==> Cancelled(s'))
  {
    hide Step, World.Effect, WorkerOk, World.CommittedAfter;
  }

  lemma OwnStep(env: Env, p: nat, s: State, ev: Event)
    requires EnvOk(env) && Serves(env, p, s) && Admits(env, s, s.parts[p], ev)
    requires Step(env.cfg, s.parts[p].worker.value, ev).Some?
    ensures Next(env, s, Work(p, ev)).Some?
    ensures var s' := Next(env, s, Work(p, ev)).value;
            var w := s.parts[p].worker.value;
            var w' := Step(env.cfg, w, ev).value;
            && Serves(env, p, s') && s'.parts[p].worker == Some(w')
            && s'.inflight == s.inflight + (if ev.Add? then ev.delta else 0)
            && (Cancelled(s') <==> Cancelled(s) || (ev.WriteDlq? && ev.dlqResult.NotConfigured?))
            && InFlight(w') == InFlight(w) + (if ev.Add? then ev.delta else 0)
  {
    StepKeepsWorkerOk(env.cfg, s.parts[p].worker.value, ev);
    StepAccountsInFlight(env.cfg, s.parts[p].worker.value, ev);
    hide Step, World.Effect, WorkerOk, World.CommittedAfter, InFlight;
  }

  lemma Reaches(env: Env, p: nat, run: seq<Action>, start: nat, a: Action)
    requires Reach(env, run).Some? && Next(env, Reach(env, run).value, a).Some? && start <= |run|
    ensures Reach(env, run + [a]) == Next(env, Reach(env, run).value, a)
    ensures Interactions(p, (run + [a])[start..])
         == Interactions(p, run[start..]) + (if a.Work? && a.p == p then [a.ev] else [])
  {
    assert (run + [a])[..|run|] == run;
    assert (run + [a])[start..] == run[start..] + [a];
    assert (run[start..] + [a])[..|run[start..]|] == run[start..];
    hide Next;
  }

  /** What follows a failed attempt, by the answer of the context and the kind of error. */
  lemma FailedAttempt(cfg: Config, w: Worker)
    requires w.pc.Handle? && w.pc.h.ServiceFailed?
    ensures var a, e := w.pc.h.attempt, w.pc.h.error;
            && Step(cfg, w, CtxCheck(true)) == Some(AfterProcessError(w, w.pc.m, w.pc.caller, Canceled))
            && Step(cfg, w, CtxCheck(false))
            == Some(if !Retryable(e) then AfterProcessError(w, w.pc.m, w.pc.caller, NonRetryable(e))
                    else if a >= cfg.maxProcessRetries then
                      AfterProcessError(w, w.pc.m, w.pc.caller, ProcessFailed(a + 1, e))
                    else w.(pc := w.pc.(h := ServiceCall(a + 1))))
  {
    hide Retryable, AfterProcessError;
  }

  /** What follows a processing error does not depend on the attempt it came from. */
  lemma ErrorForgetsAttempt(w: Worker, w': Worker)
    requires w.pc.Handle? && w' == w.(pc := w'.pc)
    ensures forall e :: AfterProcessError(w', w.pc.m, w.pc.caller, e) == AfterProcessError(w, w.pc.m, w.pc.caller, e)
  {
  }

  lemma HandleStarts(cfg: Config, m: Msg)
    ensures match cfg.parse(m.payload)
            case Ok(t) => HandleStart(cfg, m) == ServiceCall(0) && TxOf(cfg, m) == t
            case Err(e) => HandleStart(cfg, m) == DlqCall(NonRetryable(e))
  {
  }

  lemma RejectedAtOnce(w: Worker, m: Msg, e: Error)
    requires w.pc.Handle? && w.pc.m == m && w.pc.h == DlqCall(NonRetryable(e))
    ensures AfterProcessError(w, m, w.pc.caller, NonRetryable(e)) == w
    ensures !IsContextError(NonRetryable(e))
  {
    TerminalIsShutdownIff(e, 0);
    hide IsContextError;
  }

  /** What follows a commit of one message, and a failed one. */
  lemma CommitOutcomes(cfg: Config, w: Worker, m: Msg, r: CallResult)
    requires w.pc.Handle? && w.pc.h.CommitCall? && w.pc.m == m
    ensures var failed := w.(pc := w.pc.(h := CommitFailed));
            && Step(cfg, w, Commit([m], r)) == Some(if r.Done? then w.(pc := HandleExit(w.pc.caller)) else failed)
            && Step(cfg, failed, CtxCheck(true)) == Some(GiveUp(w, w.pc.caller))
            && Step(cfg, failed, CtxCheck(false)) == Some(w)
  {
  }

  /** What follows a dead letter, and a failed one. */
  lemma DlqOutcomes(cfg: Config, w: Worker, m: Msg, reason: Error, r: DlqResult)
    requires w.pc.Handle? && w.pc.h == DlqCall(reason) && w.pc.m == m
    ensures var failed := w.(pc := w.pc.(h := DlqFailed(reason)));
            && Step(cfg, w, WriteDlq(m, reason, r))
            == Some(match r
                    case Written => w.(pc := w.pc.(h := CommitCall))
                    case NotConfigured => GiveUp(w, w.pc.caller)
                    case WriteFailed(_) => failed)
            && Step(cfg, failed, CtxCheck(true)) == Some(GiveUp(w, w.pc.caller))
            && Step(cfg, failed, CtxCheck(false)) == Some(w)
  {
  }

  lemma WrittenDelivers(cfg: Config, m: Msg, reason: Error)
    ensures Delivers(cfg, WriteDlq(m, reason, Written), m)
  {
  }

  lemma SettledStays(cfg: Config, own: seq<Event>, own': seq<Event>, since: nat, m: Msg)
    requires SettledSince(cfg, own, since, m) && own <= own'
    ensures SettledSince(cfg, own', since, m)
  {
    hide Delivers, Commits;
    var i, j :| since <= i < j < |own| && Delivers(cfg, own[i], m) && Commits(own[j], m);
    assert own'[i] == own[i] && own'[j] == own[j];
  }

  lemma SettledSinceEarlier(cfg: Config, own: seq<Event>, since: nat, earlier: nat, m: Msg)
    requires SettledSince(cfg, own, since, m) && earlier <= since
    ensures SettledSince(cfg, own, earlier, m)
  {
    hide Delivers, Commits;
  }

  ghost predicate AllSettled(cfg: Config, own: seq<Event>, since: nat, ms: seq<Msg>) {
    forall k :: 0 <= k < |ms| ==> SettledSince(cfg, own, since, ms[k])
  }

  lemma AllSettledNext(cfg: Config, own: seq<Event>, own': seq<Event>, since: nat, later: nat, ms: seq<Msg>, i: nat)
    requires i < |ms| && own <= own' && since <= later
    requires AllSettled(cfg, own, since, ms[..i]) && SettledSince(cfg, own', later, ms[i])
    ensures AllSettled(cfg, own', since, ms[..i + 1])
  {
    hide SettledSince;
    forall k | 0 <= k <= i ensures SettledSince(cfg, own', since, ms[k]) {
      if k < i {
        assert ms[..i][k] == ms[k];
        SettledStays(cfg, own, own', since, ms[k]);
      } else {
        SettledSinceEarlier(cfg, own', later, since, ms[k]);
      }
    }
  }

  lemma NoneSettled(cfg: Config, own: seq<Event>, since: nat, ms: seq<Msg>)
    ensures AllSettled(cfg, own, since, ms[..0])
  {
  }

  lemma AllSettledStay(cfg: Config, own: seq<Event>, own': seq<Event>, since: nat, ms: seq<Msg>)
    requires AllSettled(cfg, own, since, ms) && own <= own'
    ensures AllSettled(cfg, own', since, ms)
  {
    hide SettledSince;
    forall k | 0 <= k < |ms| ensures SettledSince(cfg, own', since, ms[k]) {
      SettledStays(cfg, own, own', since, ms[k]);
    }
  }

  lemma AllSettledSinceEarlier(cfg: Config, own: seq<Event>, since: nat, earlier: nat, ms: seq<Msg>)
    requires AllSettled(cfg, own, since, ms) && earlier <= since
    ensures AllSettled(cfg, own, earlier, ms)
  {
    hide SettledSince;
    forall k | 0 <= k < |ms| ensures SettledSince(cfg, own, earlier, ms[k]) {
      SettledSinceEarlier(cfg, own, since, earlier, ms[k]);
    }
  }

  /** The service calls of a flush of n messages: the attempts at the bulk insert, and at each message. */
  function FlushBound(n: nat, retries: nat): nat {
    (n + 1) * (retries + 1)
  }

  /** The failed ones of calls repeated until one succeeds: each interaction is one of them, or its context check. */
  function Failures(interactions: int): nat {
    if interactions <= 0 then 0 else (interactions - 1) / 2
  }

  /** Waiting once more doubles the total, which is one less than a power of two. */
  lemma WaitsDouble(n: nat)
    ensures Settings.Pow2(0) == 1
    ensures Settings.Pow2(n + 1) == Settings.Pow2(n) + Settings.Pow2(n)
  {
  }

  /** The processing error after so many attempts that did not succeed. */
  predicate Exhausted(cfg: Config, e: Error, attempts: int) {
    || (e.NonRetryable? && !Retryable(e.cause))
    || (&& e.ProcessFailed? && Retryable(e.cause)
        && e.attempts == attempts == cfg.maxProcessRetries + 1)
  }

  /** One more message is one more round of attempts. */
  lemma FlushCalls(n: nat, retries: nat)
    ensures retries + 1 + n * (retries + 1) == (n + 1) * (retries + 1)
  {
  }

  /** One bulk insert that succeeded and one commit settle the whole batch. */
  lemma BulkSettles(cfg: Config, own: seq<Event>, since: nat, ms: seq<Msg>, i: nat, j: nat)
    requires since <= i < j < |own| && own[i] == BulkService(TxsOf(cfg, ms), Stored) && own[j] == Commit(ms, Done)
    ensures AllSettled(cfg, own, since, ms)
  {
    forall k | 0 <= k < |ms| ensures SettledSince(cfg, own, since, ms[k]) {
      assert TxsOf(cfg, ms)[k] == TxOf(cfg, ms[k]);
      hide TxsOf, TxOf;
      assert Delivers(cfg, own[i], ms[k]) && Commits(own[j], ms[k]);
    }
  }

  lemma BulkOutcomes(cfg: Config, w: Worker, r: CallResult)
    requires w.pc.BulkCommit?
    ensures var failed := w.(pc := BulkCommitFailed);
            && Step(cfg, w, Commit(w.batch, r)) == Some(if r.Done? then w.(pc := FlushExit) else failed)
            && Step(cfg, failed, CtxCheck(true)) == Some(w.(pc := FlushExit, aborted := true))
            && Step(cfg, failed, CtxCheck(false)) == Some(w)
  {
  }

  lemma FailedBulk(cfg: Config, w: Worker)
    requires w.pc.BulkFailed?
    ensures var a, e := w.pc.attempt, w.pc.error;
            && Step(cfg, w, CtxCheck(true)) == Some(w.(pc := FlushExit, aborted := true))
            && Step(cfg, w, CtxCheck(false))
            == Some(w.(pc := if !Retryable(e) || a >= cfg.maxProcessRetries then FallbackEnter else BulkCall(a + 1)))
  {
    hide Retryable;
  }

  /** The additions to the counter around a flush and around each message of its fallback. */
  lemma FlushFrames(cfg: Config, w: Worker, i: nat)
    ensures w.pc.FlushEnter? ==> Step(cfg, w, Add(|w.batch|)) == Some(w.(pc := BulkCall(0)))
    ensures w.pc.FallbackEnter? ==> Step(cfg, w, Add(-|w.batch|)) == Some(w.(pc := FallbackLoop(0)))
    ensures w.pc == FallbackLoop(i) && i < |w.batch| ==>
              Step(cfg, w, Add(1)) == Some(HandleAt(cfg, w, w.batch[i], FromFallback(i)))
    ensures w.pc == FallbackLoop(i) && i == |w.batch| ==> Step(cfg, w, Add(|w.batch|)) == Some(w.(pc := FlushExit))
    ensures w.pc == HandleExit(FromFallback(i)) ==> Step(cfg, w, Add(-1)) == Some(w.(pc := FallbackLoop(i + 1)))
    ensures w.pc.FlushExit? ==> Step(cfg, w, Add(-|w.batch|)) == Some(EndFlush(cfg, w.(batch := [])))
  {
  }

  /** A worker owes the counter nothing when it enters a flush and when it has left it. */
  lemma EvenAroundFlush(cfg: Config, w: Worker)
    ensures w.pc.FlushEnter? ==> InFlight(w) == 0
    ensures InFlight(EndFlush(cfg, w)) == 0
    ensures EndFlush(cfg, w).aborted == w.aborted
  {
  }

  lemma SelectOutcomes(cfg: Config, w: Worker, m: Msg)
    requires w.pc.Select?
    ensures Step(cfg, w, Receive(m)) == Some(w.(pc := Received(m)))
    ensures Step(cfg, w, ReceiveClosed) == Some(w.(pc := Stopped))
    ensures Step(cfg, w, Tick) == Some(BeginFlush(cfg, w, ToSelect))
  {
  }

  lemma ReceivedOutcomes(cfg: Config, w: Worker, m: Msg)
    requires w.pc == Received(m)
    ensures Step(cfg, w, CtxCheck(true)) == Some(w.(pc := Stopped))
    ensures var w1 := w.(pc := Pc.Select, batch := w.batch + [m]);
            Step(cfg, w, CtxCheck(false))
            == Some(if cfg.parse(m.payload).Err? then BeginFlush(cfg, w, ToReject(m))
                    else if |w1.batch| >= cfg.batchSize then BeginFlush(cfg, w1, ToSelect) else w1)
  {
  }

  lemma RejectFrames(cfg: Config, w: Worker, m: Msg)
    ensures w.pc == RejectEnter(m) ==> Step(cfg, w, Add(1)) == Some(HandleAt(cfg, w, m, FromReject))
    ensures w.pc == HandleExit(FromReject) ==> Step(cfg, w, Add(-1)) == Some(w.(pc := Pc.Select))
  {
  }

  lemma NoTxs(cfg: Config)
    ensures TxsOf(cfg, []) == []
  {
  }

  lemma TxsOfAppend(cfg: Config, ms: seq<Msg>, m: Msg)
    ensures TxsOf(cfg, ms + [m]) == TxsOf(cfg, ms) + [TxOf(cfg, m)]
  {
  }

  class PartitionWorker {
    const env: Env
    const p: nat

    /** The process and the outside world. The worker reads its channel, the context and the counter. */
    var memory: State
    var script: seq<Choice>

    var batchMsgs: seq<Msg>
    var batchDomains: seq<Domain.Transaction>

    /** All actions since the very first start, and the interactions of this worker since the goroutine was started. */
    ghost const start: nat
    ghost var run: seq<Action>
    ghost var own: seq<Event>

    /** How long the worker has waited before repeating calls, in base delays and without jitter and cap. */
    ghost var waited: nat

    ghost predicate Valid()
      reads this
    {
      && EnvOk(env) && !env.cfg.recheckAfterFlush
      && Reach(env, run) == Some(memory)
      && Serves(env, p, memory)
      && start <= |run| && own == Interactions(p, run[start..])
      && NetAdded(own) == InFlight(Me())
    }

    /** Where the transition system has the worker. */
    ghost function Me(): Worker
      requires p < |memory.parts| && memory.parts[p].worker.Some?
      reads this
    {
      memory.parts[p].worker.value
    }

    /** The two buffers run in step, and hold the batch. */
    ghost predicate Buffered()
      requires p < |memory.parts| && memory.parts[p].worker.Some?
      reads this
    {
      batchMsgs == Me().batch && batchDomains == TxsOf(env.cfg, batchMsgs)
    }

    /** The goroutine has just been started. */
    constructor (env: Env, p: nat, memory: State, script: seq<Choice>, ghost run: seq<Action>)
      requires EnvOk(env) && !env.cfg.recheckAfterFlush
      requires Reach(env, run) == Some(memory) && Serves(env, p, memory)
      requires memory.parts[p].worker == Some(FreshWorker)
      ensures this.env == env && this.p == p && this.run == run && this.script == script
      ensures Valid() && Buffered() && Me() == FreshWorker && own == []
    {
      this.env, this.p, this.memory, this.script := env, p, memory, script;
      batchMsgs, batchDomains := [], [];
      this.run, start, own, waited := run, |run|, [], 0;
    }

    /** The others act. */
    method Interfere() returns (choice: Choice)
      requires Valid()
      modifies `memory, `script, `run
      ensures Valid() && Me() == old(Me())
      ensures old(run) <= run
      ensures old(Cancelled(memory)) ==> Cancelled(memory)
      ensures |script| <= |old(script)|
      ensures if old(script) == [] then Cancelled(memory) else |script| < |old(script)|
      ensures choice == FirstChoice(old(script)) && memory == Meanwhile(env, p, old(memory), choice.others)
    {
      hide Next, Reach, Interactions, WorkerOk, InFlight, Foreign, Meanwhile;
      if script == [] {
        choice := SHUTDOWN;
      } else {
        choice := script[0];
        script := script[1..];
      }
      ActAll(choice.others);
    }

    method ActAll(others: seq<Action>)
      requires Valid()
      modifies `memory, `run
      ensures Valid() && Me() == old(Me())
      ensures old(run) <= run
      ensures old(Cancelled(memory)) ==> Cancelled(memory)
      ensures others == [CancelApp] ==> Cancelled(memory)
      ensures memory == Meanwhile(env, p, old(memory), others)
    {
      hide Next, Reach, Interactions, WorkerOk, InFlight, Foreign, Meanwhile;
      NoneMeanwhile(env, p, memory, others);
      for i := 0 to |others|
        invariant Valid() && Me() == old(Me())
        invariant old(run) <= run
        invariant old(Cancelled(memory)) ==> Cancelled(memory)
        invariant i == 1 && others[0] == CancelApp ==> Cancelled(memory)
        invariant memory == Meanwhile(env, p, old(memory), others[..i])
      {
        MeanwhileNext(env, p, old(memory), others, i);
        Act(others[i]);
      }
      assert others[..|others|] == others;
    }

    method Act(a: Action)
      requires Valid()
      modifies `memory, `run
      ensures Valid() && Me() == old(Me())
      ensures old(run) <= run
      ensures old(Cancelled(memory)) ==> Cancelled(memory)
      ensures a == CancelApp ==> Cancelled(memory)
      ensures memory == if Foreign(p, a) && Next(env, old(memory), a).Some? then Next(env, old(memory), a).value
                        else old(memory)
    {
      if Foreign(p, a) && Next(env, memory, a).Some? {
        ForeignKeeps(env, p, memory, a);
        Reaches(env, p, run, start, a);
        run := run + [a];
        memory := Next(env, memory, a).value;
      }
      hide Reach, Interactions, WorkerOk, InFlight, WorkNext, FetchNext, SendNext, LeaveNext, CloseNext;
    }

    /** One interaction of this worker. */
    method Perform(ev: Event)
      requires Valid() && Admits(env, memory, memory.parts[p], ev) && Step(env.cfg, Me(), ev).Some?
      modifies `memory, `run, `own
      ensures Valid() && Some(Me()) == Step(env.cfg, old(Me()), ev)
      ensures old(run) <= run
      ensures own == old(own) + [ev] && run == old(run) + [Work(p, ev)]
      ensures memory.inflight == old(memory.inflight) + (if ev.Add? then ev.delta else 0)
      ensures Cancelled(memory) <==> old(Cancelled(memory)) || (ev.WriteDlq? && ev.dlqResult.NotConfigured?)
    {
      hide Next, Reach, Interactions, Step, WorkerOk, InFlight, Admits;
      OwnStep(env, p, memory, ev);
      Reaches(env, p, run, start, Work(p, ev));
      Recorded(own, ev);
      run := run + [Work(p, ev)];
      own := own + [ev];
      memory := Next(env, memory, Work(p, ev)).value;
    }

    // -------------------------------------------------------------------------------------------------------
    // The interactions
    // -------------------------------------------------------------------------------------------------------

    /** The select statement. */
    method Select() returns (input: Input)
      requires Valid() && Me().pc.Select?
      modifies `memory, `script, `run, `own
      ensures Valid()
      ensures old(run) <= run
      ensures match input
              case Message(m) => Me() == old(Me()).(pc := Received(m))
              case Ticked => Me() == BeginFlush(env.cfg, old(Me()), ToSelect)
              case ChannelClosed => Me() == old(Me()).(pc := Stopped)
              case Nothing => Me() == old(Me()) && script == []
      ensures !input.Nothing? ==> |script| < |old(script)|
      ensures input == if old(script) == [] then Nothing
                       else Yields(old(script)[0].tick, Meanwhile(env, p, old(memory), old(script)[0].others), p)
      ensures ServiceCalls(own) == ServiceCalls(old(own)) && old(own) <= own
    {
      hide WorkerOk, InFlight, Reach, Meanwhile, Interactions, ServiceCalls, NetAdded, Step, BeginFlush;
      if script == [] {
        return Nothing;
      }
      var choice := Interfere();
      var part := memory.parts[p];
      SelectOutcomes(env.cfg, Me(), if part.queue != [] then part.queue[0] else Msg(0, 0, Malformed));
      ghost var before := own;
      if !choice.tick && part.queue != [] {
        input := Message(part.queue[0]);
        Perform(Receive(part.queue[0]));
        Recorded(before, Receive(part.queue[0]));
      } else if !choice.tick && part.closed > 0 {
        input := ChannelClosed;
        Perform(ReceiveClosed);
        Recorded(before, ReceiveClosed);
      } else {
        input := Ticked;
        Perform(Tick);
        Recorded(before, Tick);
      }
    }

    /** appCtx.Err() != nil */
    method CtxErr() returns (cancelled: bool)
      requires Valid() && Step(env.cfg, Me(), CtxCheck(true)).Some? && Step(env.cfg, Me(), CtxCheck(false)).Some?
      modifies `memory, `script, `run, `own
      ensures Valid() && Some(Me()) == Step(env.cfg, old(Me()), CtxCheck(cancelled))
      ensures old(run) <= run
      ensures own == old(own) + [CtxCheck(cancelled)] && ServiceCalls(own) == ServiceCalls(old(own))
      ensures old(Cancelled(memory)) ==> cancelled
      ensures cancelled == Cancelled(memory)
      ensures |script| <= |old(script)|
      ensures !cancelled ==> |script| < |old(script)|
    {
      hide Step, Reach, Meanwhile, FirstChoice, Interactions, WorkerOk, InFlight, NetAdded, ServiceCalls;
      var _ := Interfere();
      cancelled := Cancelled(memory);
      Recorded(own, CtxCheck(cancelled));
      Perform(CtxCheck(cancelled));
    }

    /** atomic.AddInt64(&c.inflight, delta) */
    method AddInflight(delta: int)
      requires Valid() && Step(env.cfg, Me(), Add(delta)).Some?
      modifies `memory, `script, `run, `own
      ensures Valid() && Some(Me()) == Step(env.cfg, old(Me()), Add(delta))
      ensures old(run) <= run
      ensures own == old(own) + [Add(delta)] && ServiceCalls(own) == ServiceCalls(old(own))
      ensures old(Cancelled(memory)) ==> Cancelled(memory)
      ensures |script| <= |old(script)|
    {
      hide Step, Reach, Meanwhile, FirstChoice, Interactions, WorkerOk, InFlight, NetAdded, ServiceCalls;
      var _ := Interfere();
      Recorded(own, Add(delta));
      Perform(Add(delta));
    }

    /** A call under a cancelled context fails without effect; any other may fail, with or without one. */
    function ServiceOutcome(choice: Choice, cancelled: bool): ServiceResult {
      match choice.failure
      case Some(e) => Refused(e, choice.applied && !cancelled)
      case None => if cancelled then Refused(Canceled, false) else Stored
    }

    method RegisterTransactions(txs: seq<Domain.Transaction>) returns (err: Option<Error>)
      requires Valid() && Me().pc.BulkCall? && txs == TxsOf(env.cfg, Me().batch)
      modifies `memory, `script, `run, `own
      ensures Valid()
      ensures old(run) <= run
      ensures Me() == old(Me()).(pc := if err.None? then BulkCommit else BulkFailed(old(Me().pc.attempt), err.value))
      ensures exists r ::
                && own == old(own) + [BulkService(txs, r)] && (err.None? <==> r.Stored?)
                && (old(Cancelled(memory)) ==> !World.Applied(r))
                && (r.Refused? ==>
                      (r.applied <==> FirstChoice(old(script)).failure.Some? && FirstChoice(old(script)).applied
                                      && !Cancelled(memory)))
      ensures err.None? <==> FirstChoice(old(script)).failure.None? && !Cancelled(memory)
      ensures ServiceCalls(own) == ServiceCalls(old(own)) + 1
      ensures old(Cancelled(memory)) ==> Cancelled(memory)
      ensures |script| <= |old(script)|
    {
      hide Reach, Meanwhile, FirstChoice, Interactions, WorkerOk, InFlight, NetAdded, ServiceCalls, TxsOf;
      var choice := Interfere();
      var r := ServiceOutcome(choice, Cancelled(memory));
      Recorded(own, BulkService(txs, r));
      Perform(BulkService(txs, r));
      err := if r.Stored? then None else Some(r.error);
    }

    method RegisterTransaction(tx: Domain.Transaction) returns (err: Option<Error>)
      requires Valid() && Me().pc.Handle? && Me().pc.h.ServiceCall? && tx == TxOf(env.cfg, Me().pc.m)
      modifies `memory, `script, `run, `own
      ensures Valid()
      ensures old(run) <= run
      ensures Me() == old(Me()).(pc := old(Me().pc).(
                        h := if err.None? then CommitCall else ServiceFailed(old(Me().pc.h.attempt), err.value)))
      ensures exists r ::
                && own == old(own) + [Service(tx, r)] && (err.None? <==> r.Stored?)
                && (old(Cancelled(memory)) ==> !World.Applied(r))
                && (r.Refused? ==>
                      (r.applied <==> FirstChoice(old(script)).failure.Some? && FirstChoice(old(script)).applied
                                      && !Cancelled(memory)))
      ensures err.None? <==> FirstChoice(old(script)).failure.None? && !Cancelled(memory)
      ensures ServiceCalls(own) == ServiceCalls(old(own)) + 1 && (err.Some? ==> !Mixed(err.value))
      ensures old(Cancelled(memory)) ==> Cancelled(memory)
      ensures |script| <= |old(script)|
    {
      hide Reach, Meanwhile, FirstChoice, Interactions, WorkerOk, InFlight, NetAdded, ServiceCalls, TxOf;
      var choice := Interfere();
      var r := ServiceOutcome(choice, Cancelled(memory));
      Recorded(own, Service(tx, r));
      Perform(Service(tx, r));
      err := if r.Stored? then None else Some(r.error);
    }

    /** routeToDLQ, and triggerFatal when there is no writer. */
    method RouteToDLQ(m: Msg, reason: Error) returns (r: DlqResult)
      requires Valid() && Me().pc.Handle? && Me().pc.h == DlqCall(reason) && m == Me().pc.m
      modifies `memory, `script, `run, `own
      ensures Valid()
      ensures old(run) <= run
      ensures Some(Me()) == Step(env.cfg, old(Me()), WriteDlq(m, reason, r))
      ensures own == old(own) + [WriteDlq(m, reason, r)] && ServiceCalls(own) == ServiceCalls(old(own))
      ensures r.NotConfigured? <==> !env.cfg.hasWriter
      ensures r.Written? <==> env.cfg.hasWriter && FirstChoice(old(script)).failure.None?
      ensures r.WriteFailed? ==> r.applied == FirstChoice(old(script)).applied
      ensures old(Cancelled(memory)) || r.NotConfigured? ==> Cancelled(memory)
      ensures |script| <= |old(script)|
    {
      hide Reach, Meanwhile, FirstChoice, Interactions, WorkerOk, InFlight, NetAdded, ServiceCalls;
      var choice := Interfere();
      r := if !env.cfg.hasWriter then NotConfigured
           else if choice.failure.Some? then WriteFailed(choice.applied)
           else Written;
      Recorded(own, WriteDlq(m, reason, r));
      Perform(WriteDlq(m, reason, r));
    }

    /** CommitMessages under the detached context. */
    method CommitMessages(ms: seq<Msg>) returns (r: CallResult)
      requires Valid() && Step(env.cfg, Me(), Commit(ms, Done)).Some?
      requires Step(env.cfg, Me(), Commit(ms, Failed(true))).Some?
      requires Step(env.cfg, Me(), Commit(ms, Failed(false))).Some?
      modifies `memory, `script, `run, `own
      ensures Valid() && Some(Me()) == Step(env.cfg, old(Me()), Commit(ms, r))
      ensures old(run) <= run
      ensures own == old(own) + [Commit(ms, r)] && ServiceCalls(own) == ServiceCalls(old(own))
      ensures r.Done? <==> FirstChoice(old(script)).failure.None?
      ensures r.Failed? ==> r.applied == FirstChoice(old(script)).applied
      ensures old(Cancelled(memory)) ==> Cancelled(memory)
      ensures |script| <= |old(script)|
    {
      hide Step, Reach, Meanwhile, FirstChoice, Interactions, WorkerOk, InFlight, NetAdded, ServiceCalls;
      var choice := Interfere();
      r := if choice.failure.Some? then Failed(choice.applied) else Done;
      Recorded(own, Commit(ms, r));
      Perform(Commit(ms, r));
    }

    /** Only attempts up to the configured number of retries are ever waited for. */
    method SleepBackoff(attempt: nat)
      requires Valid() && attempt <= env.cfg.maxProcessRetries
      modifies `memory, `script, `run, `waited
      ensures Valid() && Me() == old(Me())
      ensures old(run) <= run
      ensures old(Cancelled(memory)) ==> Cancelled(memory)
      ensures waited == old(waited) + Settings.Pow2(attempt)
      ensures |script| <= |old(script)|
    {
      var _ := Interfere();
      waited := waited + Settings.Pow2(attempt);
    }

    // -------------------------------------------------------------------------------------------------------
    // processMessageWithRetries, handleMessage
    // -------------------------------------------------------------------------------------------------------

    /**
     * nil means that an attempt succeeded, and nothing else does. Without a cancellation it gives up on a rejected
     * message at once, on an error that is not retryable after the attempt that met it, and on any other only after
     * exactly MaxProcessRetries + 1 attempts.
     */
    method ProcessMessageWithRetries(m: Msg) returns (err: Option<Error>)
      requires Valid() && Me().pc.Handle? && Me().pc.m == m && Me().pc.h == HandleStart(env.cfg, m)
      modifies `memory, `script, `run, `own, `waited
      ensures Valid() && old(own) <= own && old(run) <= run
      ensures err.None? ==> Me() == old(Me()).(pc := old(Me().pc).(h := CommitCall))
      ensures err.None? ==> |own| > |old(own)| && own[|own| - 1] == Service(TxOf(env.cfg, m), Stored)
      ensures err.Some? ==> Me() == AfterProcessError(old(Me()), m, old(Me().pc.caller), err.value)
      ensures err.Some? && IsContextError(err.value) ==> Cancelled(memory)
      ensures env.cfg.parse(m.payload).Err? ==>
                err == Some(NonRetryable(env.cfg.parse(m.payload).error)) && own == old(own) && waited == old(waited)
      ensures env.cfg.parse(m.payload).Ok? ==> Attempted(old(own), old(waited), err)
      ensures old(Cancelled(memory)) ==> Cancelled(memory)
      ensures NoCommit(own, |old(own)|)
      ensures ServiceCalls(own) <= ServiceCalls(old(own)) + env.cfg.maxProcessRetries + 1
      ensures |script| <= |old(script)|
    {
      hide Reach, Meanwhile, FirstChoice, Interactions, WorkerOk, InFlight, ServiceCalls, NetAdded, Retryable, Step,
           IsContextError, AfterProcessError, NoCommit, Contains, HandleStart, TxOf, Attempted;
      HandleStarts(env.cfg, m);
      var parsed := env.cfg.parse(m.payload);
      if parsed.Err? {
        RejectedAtOnce(Me(), m, parsed.error);
        NothingCommitted(own);
        return Some(NonRetryable(parsed.error));
      }
      err := ProcessWithRetries(m, parsed.value);
    }

    /**
     * At least one attempt since the point of the history was made; it did not end before it had to, and the worker has
     * waited between the attempts, twice as long each time.
     */
    ghost predicate Attempted(before: seq<Event>, waitedBefore: nat, err: Option<Error>)
      reads this
    {
      var attempts := ServiceCalls(own) - ServiceCalls(before);
      && 1 <= attempts <= env.cfg.maxProcessRetries + 1
      && waited == waitedBefore + Settings.Pow2(attempts - 1) - 1
      && (err.Some? ==> (err.value == Canceled && Cancelled(memory)) || Exhausted(env.cfg, err.value, attempts))
    }

    /** The retry loop. */
    method ProcessWithRetries(m: Msg, t: Domain.Transaction) returns (err: Option<Error>)
      requires Valid() && Me().pc.Handle? && Me().pc.m == m && Me().pc.h == ServiceCall(0) && t == TxOf(env.cfg, m)
      modifies `memory, `script, `run, `own, `waited
      ensures Valid() && old(own) <= own && old(run) <= run
      ensures err.None? ==> Me() == old(Me()).(pc := old(Me().pc).(h := CommitCall))
      ensures err.None? ==> |own| > |old(own)| && own[|own| - 1] == Service(TxOf(env.cfg, m), Stored)
      ensures err.Some? ==> Me() == AfterProcessError(old(Me()), m, old(Me().pc.caller), err.value)
      ensures err.Some? && IsContextError(err.value) ==> Cancelled(memory)
      ensures Attempted(old(own), old(waited), err)
      ensures old(Cancelled(memory)) ==> Cancelled(memory)
      ensures NoCommit(own, |old(own)|)
      ensures ServiceCalls(own) <= ServiceCalls(old(own)) + env.cfg.maxProcessRetries + 1
      ensures |script| <= |old(script)|
    {
      hide Reach, Meanwhile, FirstChoice, Interactions, WorkerOk, InFlight, ServiceCalls, NetAdded, Retryable, Step,
           IsContextError, Mixed, Settings.Pow2, AfterProcessError, NoCommit, Contains, TxOf;
      WaitsDouble(0);
      NothingCommitted(own);
      ghost var begin := Me();
      var attempt := 0;
      while attempt <= env.cfg.maxProcessRetries
        invariant 0 <= attempt <= env.cfg.maxProcessRetries
        invariant Valid() && old(own) <= own && old(run) <= run
        invariant Me() == begin.(pc := begin.pc.(h := ServiceCall(attempt)))
        invariant old(Cancelled(memory)) ==> Cancelled(memory)
        invariant NoCommit(own, |old(own)|)
        invariant ServiceCalls(own) == ServiceCalls(old(own)) + attempt
        invariant waited == old(waited) + Settings.Pow2(attempt) - 1
        invariant |script| <= |old(script)|
        decreases env.cfg.maxProcessRetries + 1 - attempt
      {
        ghost var before := own;
        var e := RegisterTransaction(t);
        NoCommitNext(before, own, |old(own)|);
        if e.None? {
          return None;
        }
        FailedAttempt(env.cfg, Me());
        TerminalIsShutdownIff(e.value, attempt + 1);
        ErrorForgetsAttempt(begin, Me());
        before := own;
        var cancelled := CtxErr();
        NoCommitNext(before, own, |old(own)|);
        if cancelled {
          return Some(Canceled);
        }
        if !Retryable(e.value) {
          return Some(NonRetryable(e.value));
        }
        if attempt == env.cfg.maxProcessRetries {
          return Some(ProcessFailed(attempt + 1, e.value));
        }
        WaitsDouble(attempt);
        SleepBackoff(attempt);
        attempt := attempt + 1;
      }
      assert false;
    }

    /**
     * Either the message is delivered and then committed, or handling was given up on a cancelled context and nothing
     * was committed.
     */
    method HandleMessage(m: Msg)
      requires Valid() && Me().pc.Handle? && Me().pc.m == m && Me().pc.h == HandleStart(env.cfg, m)
      modifies `memory, `script, `run, `own, `waited
      ensures Valid() && old(own) <= own
      ensures old(run) <= run
      ensures || (&& SettledSince(env.cfg, own, |old(own)|, m)
                  && Me() == old(Me()).(pc := HandleExit(old(Me().pc.caller))))
              || (NoCommit(own, |old(own)|) && Cancelled(memory) && Me() == GiveUp(old(Me()), old(Me().pc.caller)))
      ensures old(Cancelled(memory)) ==> Cancelled(memory)
      ensures ServiceCalls(own) <= ServiceCalls(old(own)) + env.cfg.maxProcessRetries + 1
      ensures |script| <= |old(script)|
    {
      hide Reach, Meanwhile, FirstChoice, Interactions, WorkerOk, InFlight, ServiceCalls, NetAdded, IsContextError,
           Exhausted, Retryable, Step, HandleStart;
      var err := ProcessMessageWithRetries(m);
      if err.Some? {
        if IsContextError(err.value) {
          return;
        }
        var delivered := DeadLetter(m, err.value);
        if !delivered {
          return;
        }
      }
      CommitOne(m, |old(own)|);
    }

    /** The retry loop around routeToDLQ; without success the message is given up. */
    method DeadLetter(m: Msg, reason: Error) returns (delivered: bool)
      requires Valid() && Me().pc.Handle? && Me().pc.m == m && Me().pc.h == DlqCall(reason)
      modifies `memory, `script, `run, `own, `waited
      ensures Valid() && old(own) <= own && NoCommit(own, |old(own)|)
      ensures old(run) <= run
      ensures delivered ==> DeliveredSince(env.cfg, own, |old(own)|, m)
      ensures delivered ==> Me() == old(Me()).(pc := old(Me().pc).(h := CommitCall))
      ensures !delivered ==> Cancelled(memory) && Me() == GiveUp(old(Me()), old(Me().pc.caller))
      ensures old(Cancelled(memory)) ==> Cancelled(memory)
      ensures ServiceCalls(own) == ServiceCalls(old(own))
      ensures waited == old(waited) + Failures(|own| - |old(own)|)
      ensures |script| <= |old(script)|
    {
      hide Reach, Meanwhile, FirstChoice, Interactions, WorkerOk, InFlight, ServiceCalls, NetAdded, Settings.Pow2,
           NoCommit, Delivers, Step, GiveUp;
      NothingCommitted(own);
      DlqOutcomes(env.cfg, Me(), m, reason, Written);
      DlqOutcomes(env.cfg, Me(), m, reason, NotConfigured);
      DlqOutcomes(env.cfg, Me(), m, reason, WriteFailed(true));
      DlqOutcomes(env.cfg, Me(), m, reason, WriteFailed(false));
      WaitsDouble(0);
      ghost var failures := 0;
      while true
        invariant |own| == |old(own)| + 2 * failures && waited == old(waited) + failures
        invariant Valid() && Me() == old(Me()) && old(own) <= own && NoCommit(own, |old(own)|)
        invariant old(run) <= run
        invariant old(Cancelled(memory)) ==> Cancelled(memory)
        invariant ServiceCalls(own) == ServiceCalls(old(own))
        invariant |script| <= |old(script)|
        decreases |script|
      {
        ghost var before := own;
        var r := RouteToDLQ(m, reason);
        NoCommitNext(before, own, |old(own)|);
        if r.Written? {
          WrittenDelivers(env.cfg, m, reason);
          assert Delivers(env.cfg, own[|own| - 1], m);
          return true;
        }
        if r.NotConfigured? {
          return false;
        }
        before := own;
        var cancelled := CtxErr();
        NoCommitNext(before, own, |old(own)|);
        if cancelled {
          return false;
        }
        SleepBackoff(0);
        failures := failures + 1;
      }
    }

    /** The retry loop around commit. */
    method CommitOne(m: Msg, ghost since: nat)
      requires Valid() && Me().pc.Handle? && Me().pc.m == m && Me().pc.h == CommitCall
      requires since <= |own| && DeliveredSince(env.cfg, own, since, m) && NoCommit(own, since)
      modifies `memory, `script, `run, `own, `waited
      ensures Valid() && old(own) <= own
      ensures old(run) <= run
      ensures || (SettledSince(env.cfg, own, since, m) && Me() == old(Me()).(pc := HandleExit(old(Me().pc.caller))))
              || (NoCommit(own, since) && Cancelled(memory) && Me() == GiveUp(old(Me()), old(Me().pc.caller)))
      ensures old(Cancelled(memory)) ==> Cancelled(memory)
      ensures ServiceCalls(own) == ServiceCalls(old(own))
      ensures waited == old(waited) + Failures(|own| - |old(own)|)
      ensures |script| <= |old(script)|
    {
      hide Reach, Meanwhile, FirstChoice, Interactions, WorkerOk, InFlight, ServiceCalls, NetAdded, Settings.Pow2,
           Step, GiveUp, Delivers;
      ghost var at :| since <= at < |own| && Delivers(env.cfg, own[at], m);
      CommitOutcomes(env.cfg, Me(), m, Done);
      CommitOutcomes(env.cfg, Me(), m, Failed(true));
      CommitOutcomes(env.cfg, Me(), m, Failed(false));
      WaitsDouble(0);
      ghost var failures := 0;
      while true
        invariant |own| == |old(own)| + 2 * failures && waited == old(waited) + failures
        invariant Valid() && Me() == old(Me()) && old(own) <= own && NoCommit(own, since)
        invariant old(run) <= run
        invariant old(Cancelled(memory)) ==> Cancelled(memory)
        invariant ServiceCalls(own) == ServiceCalls(old(own))
        invariant |script| <= |old(script)|
        decreases |script|
      {
        var r := CommitMessages([m]);
        if r.Done? {
          assert Delivers(env.cfg, own[at], m) && Commits(own[|own| - 1], m);
          return;
        }
        var cancelled := CtxErr();
        if cancelled {
          return;
        }
        SleepBackoff(0);
        failures := failures + 1;
      }
    }

    // -------------------------------------------------------------------------------------------------------
    // flushBatch
    // -------------------------------------------------------------------------------------------------------

    /**
     * Empties the batch. Unless the flush was aborted on a cancelled context, every message was delivered and then
     * committed; in any case the in-flight counter has been given back what was added to it.
     */
    method FlushBatch(msgs: seq<Msg>, txs: seq<Domain.Transaction>)
      requires Valid() && msgs == Me().batch && txs == TxsOf(env.cfg, msgs) && !Me().aborted
      requires msgs != [] ==> Me().pc.FlushEnter?
      modifies `memory, `script, `run, `own, `waited
      ensures Valid() && old(own) <= own
      ensures old(run) <= run
      ensures msgs == [] ==> Me() == old(Me())
      ensures msgs != [] ==>
                Me() == EndFlush(env.cfg, old(Me()).(pc := FlushExit, batch := [], aborted := Me().aborted))
      ensures if Me().aborted then Cancelled(memory) else AllSettled(env.cfg, own, |old(own)|, msgs)
      ensures NetAdded(own) == NetAdded(old(own))
      ensures old(Cancelled(memory)) ==> Cancelled(memory)
      ensures ServiceCalls(own) <= ServiceCalls(old(own)) + FlushBound(|msgs|, env.cfg.maxProcessRetries)
      ensures |script| <= |old(script)|
    {
      hide Reach, Meanwhile, FirstChoice, Interactions, WorkerOk, ServiceCalls, NetAdded, Step, AllSettled, TxsOf,
           InFlight, EndFlush, FlushBound;
      if |msgs| == 0 {
        NoneSettled(env.cfg, own, |own|, msgs);
        return;
      }
      EvenAroundFlush(env.cfg, Me());
      FlushFrames(env.cfg, Me(), 0);
      AddInflight(|msgs|);
      Flushing(msgs, txs, |old(own)|);
      FlushFrames(env.cfg, Me(), 0);
      ghost var before := own;
      EvenAroundFlush(env.cfg, Me().(batch := []));
      AddInflight(-|msgs|);
      if !Me().aborted {
        AllSettledStay(env.cfg, before, own, |old(own)|, msgs);
      }
    }

    /** flushBatch between its first and its deferred update of the counter. */
    method Flushing(msgs: seq<Msg>, txs: seq<Domain.Transaction>, ghost since: nat)
      requires Valid() && msgs == Me().batch && msgs != [] && txs == TxsOf(env.cfg, msgs) && !Me().aborted
      requires Me().pc == BulkCall(0) && since <= |own|
      modifies `memory, `script, `run, `own, `waited
      ensures Valid() && old(own) <= own
      ensures old(run) <= run
      ensures Me() == old(Me()).(pc := FlushExit, aborted := Me().aborted)
      ensures if Me().aborted then Cancelled(memory) else AllSettled(env.cfg, own, since, msgs)
      ensures old(Cancelled(memory)) ==> Cancelled(memory)
      ensures ServiceCalls(own) <= ServiceCalls(old(own)) + FlushBound(|msgs|, env.cfg.maxProcessRetries)
      ensures |script| <= |old(script)|
    {
      hide Reach, Meanwhile, FirstChoice, Interactions, WorkerOk, InFlight, ServiceCalls, NetAdded, Step, AllSettled,
           TxsOf, Retryable;
      var bulkErr, stopped := BulkInsert(txs);
      FlushCalls(|msgs|, env.cfg.maxProcessRetries);
      if stopped {
        return;
      }
      if bulkErr.None? {
        CommitBatch(msgs, since);
        return;
      }
      FlushFrames(env.cfg, Me(), 0);
      AddInflight(-|msgs|);
      Fallback(msgs, since);
    }

    /**
     * The bulk insert with its retries: done, stopped by a cancelled context, or failed for good, which a retryable
     * error does after exactly MaxProcessRetries + 1 calls.
     */
    method BulkInsert(txs: seq<Domain.Transaction>) returns (bulkErr: Option<Error>, stopped: bool)
      requires Valid() && Me().pc == BulkCall(0) && txs == TxsOf(env.cfg, Me().batch)
      modifies `memory, `script, `run, `own, `waited
      ensures Valid() && old(own) <= own
      ensures old(run) <= run
      ensures stopped ==> Me() == old(Me()).(pc := FlushExit, aborted := true) && Cancelled(memory)
      ensures !stopped && bulkErr.None? ==> Me() == old(Me()).(pc := BulkCommit)
      ensures !stopped && bulkErr.None? ==> |own| > |old(own)| && own[|own| - 1] == BulkService(txs, Stored)
      ensures !stopped && bulkErr.Some? ==> Me() == old(Me()).(pc := FallbackEnter)
      ensures !stopped && bulkErr.Some? && Retryable(bulkErr.value) ==>
                ServiceCalls(own) == ServiceCalls(old(own)) + env.cfg.maxProcessRetries + 1
      ensures var calls := ServiceCalls(own) - ServiceCalls(old(own));
              var exhausted := !stopped && bulkErr.Some? && Retryable(bulkErr.value);
              calls > 0 && waited == old(waited) + Settings.Pow2(if exhausted then calls else calls - 1) - 1
      ensures old(Cancelled(memory)) ==> Cancelled(memory)
      ensures ServiceCalls(own) <= ServiceCalls(old(own)) + env.cfg.maxProcessRetries + 1
      ensures |script| <= |old(script)|
    {
      hide Reach, Meanwhile, FirstChoice, Interactions, WorkerOk, InFlight, ServiceCalls, NetAdded, Settings.Pow2,
           Step, Retryable, TxsOf;
      WaitsDouble(0);
      bulkErr, stopped := None, false;
      var attempt := 0;
      while attempt <= env.cfg.maxProcessRetries
        invariant 0 <= attempt <= env.cfg.maxProcessRetries + 1
        invariant Valid() && old(own) <= own && !stopped
        invariant old(run) <= run
        invariant attempt <= env.cfg.maxProcessRetries ==> Me() == old(Me()).(pc := BulkCall(attempt))
        invariant attempt > env.cfg.maxProcessRetries ==>
                    bulkErr.Some? && Retryable(bulkErr.value) && Me() == old(Me()).(pc := FallbackEnter)
        invariant old(Cancelled(memory)) ==> Cancelled(memory)
        invariant ServiceCalls(own) == ServiceCalls(old(own)) + attempt
        invariant waited == old(waited) + Settings.Pow2(attempt) - 1
        invariant |script| <= |old(script)|
        decreases env.cfg.maxProcessRetries + 1 - attempt
      {
        bulkErr := RegisterTransactions(txs);
        if bulkErr.None? {
          break;
        }
        FailedBulk(env.cfg, Me());
        var cancelled := CtxErr();
        if cancelled {
          stopped := true;
          return;
        }
        if !Retryable(bulkErr.value) {
          break;
        }
        WaitsDouble(attempt);
        SleepBackoff(attempt);
        attempt := attempt + 1;
      }
    }

    /** The retry loop around the bulk commit. */
    method CommitBatch(msgs: seq<Msg>, ghost since: nat)
      requires Valid() && Me().pc.BulkCommit? && msgs == Me().batch && !Me().aborted
      requires since < |own| && own[|own| - 1] == BulkService(TxsOf(env.cfg, msgs), Stored)
      modifies `memory, `script, `run, `own, `waited
      ensures Valid() && old(own) <= own
      ensures old(run) <= run
      ensures Me() == old(Me()).(pc := FlushExit, aborted := Me().aborted)
      ensures if Me().aborted then Cancelled(memory) else AllSettled(env.cfg, own, since, msgs)
      ensures old(Cancelled(memory)) ==> Cancelled(memory)
      ensures ServiceCalls(own) == ServiceCalls(old(own))
      ensures waited == old(waited) + Failures(|own| - |old(own)|)
      ensures |script| <= |old(script)|
    {
      hide Reach, Meanwhile, FirstChoice, Interactions, WorkerOk, InFlight, ServiceCalls, NetAdded, Settings.Pow2,
           Step, AllSettled, TxsOf;
      BulkOutcomes(env.cfg, Me(), Done);
      BulkOutcomes(env.cfg, Me(), Failed(true));
      BulkOutcomes(env.cfg, Me(), Failed(false));
      WaitsDouble(0);
      ghost var failures := 0;
      while true
        invariant |own| == |old(own)| + 2 * failures && waited == old(waited) + failures
        invariant Valid() && Me() == old(Me()) && old(own) <= own
        invariant old(run) <= run
        invariant old(Cancelled(memory)) ==> Cancelled(memory)
        invariant ServiceCalls(own) == ServiceCalls(old(own))
        invariant |script| <= |old(script)|
        decreases |script|
      {
        var r := CommitMessages(msgs);
        if r.Done? {
          BulkSettles(env.cfg, own, since, msgs, |old(own)| - 1, |own| - 1);
          return;
        }
        var cancelled := CtxErr();
        if cancelled {
          return;
        }
        SleepBackoff(0);
        failures := failures + 1;
      }
    }

    /**
     * One message after the other, each with its own share of the counter; the loop goes on after an aborted message.
     */
    method Fallback(msgs: seq<Msg>, ghost since: nat)
      requires Valid() && Me().pc == FallbackLoop(0) && msgs == Me().batch && !Me().aborted && since <= |own|
      modifies `memory, `script, `run, `own, `waited
      ensures Valid() && old(own) <= own
      ensures old(run) <= run
      ensures Me() == old(Me()).(pc := FlushExit, aborted := Me().aborted)
      ensures if Me().aborted then Cancelled(memory) else AllSettled(env.cfg, own, since, msgs)
      ensures old(Cancelled(memory)) ==> Cancelled(memory)
      ensures ServiceCalls(own) <= ServiceCalls(old(own)) + |msgs| * (env.cfg.maxProcessRetries + 1)
      ensures |script| <= |old(script)|
    {
      hide Reach, Meanwhile, FirstChoice, Interactions, WorkerOk, InFlight, ServiceCalls, NetAdded, Step, AllSettled,
           HandleStart;
      assert AllSettled(env.cfg, own, since, msgs[..0]) by { NoneSettled(env.cfg, own, since, msgs); }
      for i := 0 to |msgs|
        invariant Valid() && old(own) <= own
        invariant old(run) <= run
        invariant Me() == old(Me()).(pc := FallbackLoop(i), aborted := Me().aborted)
        invariant if Me().aborted then Cancelled(memory) else AllSettled(env.cfg, own, since, msgs[..i])
        invariant old(Cancelled(memory)) ==> Cancelled(memory)
        invariant ServiceCalls(own) <= ServiceCalls(old(own)) + i * (env.cfg.maxProcessRetries + 1)
        invariant |script| <= |old(script)|
      {
        FallbackTurn(msgs, i, since);
        FlushCalls(i, env.cfg.maxProcessRetries);
      }
      assert msgs[..|msgs|] == msgs;
      FlushFrames(env.cfg, Me(), |msgs|);
      ghost var before := own;
      AddInflight(|msgs|);
      if !Me().aborted {
        AllSettledStay(env.cfg, before, own, since, msgs);
      }
    }

    method FallbackTurn(msgs: seq<Msg>, i: nat, ghost since: nat)
      requires Valid() && Me().pc == FallbackLoop(i) && msgs == Me().batch && i < |msgs| && since <= |own|
      requires if Me().aborted then Cancelled(memory) else AllSettled(env.cfg, own, since, msgs[..i])
      modifies `memory, `script, `run, `own, `waited
      ensures Valid() && old(own) <= own
      ensures old(run) <= run
      ensures Me() == old(Me()).(pc := FallbackLoop(i + 1), aborted := Me().aborted)
      ensures if Me().aborted then Cancelled(memory) else AllSettled(env.cfg, own, since, msgs[..i + 1])
      ensures old(Cancelled(memory)) ==> Cancelled(memory)
      ensures ServiceCalls(own) <= ServiceCalls(old(own)) + env.cfg.maxProcessRetries + 1
      ensures |script| <= |old(script)|
    {
      hide Reach, Meanwhile, FirstChoice, Interactions, WorkerOk, InFlight, ServiceCalls, NetAdded, Step, AllSettled,
           HandleStart, SettledSince, NoCommit;
      FlushFrames(env.cfg, Me(), i);
      AddInflight(1);
      ghost var later := |own|;
      HandleMessage(msgs[i]);
      ghost var before := own;
      FlushFrames(env.cfg, Me(), i);
      AddInflight(-1);
      if !Me().aborted {
        SettledStays(env.cfg, before, own, later, msgs[i]);
        AllSettledNext(env.cfg, old(own), own, since, later, msgs, i);
      }
    }

    // -------------------------------------------------------------------------------------------------------
    // partitionWorker
    // -------------------------------------------------------------------------------------------------------

    /** The closure flush: flushes what is buffered, and truncates the buffers. */
    method Flush()
      requires Valid() && Buffered() && !Me().aborted
      requires batchMsgs != [] ==> Me().pc.FlushEnter?
      modifies this
      ensures Valid() && old(own) <= own
      ensures old(run) <= run
      ensures batchMsgs == [] && batchDomains == []
      ensures old(batchMsgs) == [] ==> Me() == old(Me())
      ensures old(batchMsgs) != [] ==>
                Me() == EndFlush(env.cfg, old(Me()).(pc := FlushExit, batch := [], aborted := Me().aborted))
      ensures if Me().aborted then Cancelled(memory) else AllSettled(env.cfg, own, |old(own)|, old(batchMsgs))
      ensures old(Cancelled(memory)) ==> Cancelled(memory)
      ensures |script| <= |old(script)|
    {
      hide Reach, Meanwhile, FirstChoice, Interactions, WorkerOk, InFlight, ServiceCalls, NetAdded, Step, TxsOf,
           AllSettled, EndFlush;
      if |batchMsgs| == 0 {
        NoneSettled(env.cfg, own, |own|, batchMsgs);
        NoTxs(env.cfg);
        return;
      }
      FlushBatch(batchMsgs, batchDomains);
      batchMsgs := batchMsgs[..0];
      batchDomains := batchDomains[..0];
    }

    /** The rejected message after the flush that precedes it. */
    method Reject(m: Msg)
      requires Valid() && Me().pc == RejectEnter(m)
      modifies `memory, `script, `run, `own, `waited
      ensures Valid() && old(own) <= own
      ensures old(run) <= run
      ensures Me() == old(Me()).(pc := Pc.Select)
      ensures SettledSince(env.cfg, own, |old(own)|, m) || (NoCommit(own, |old(own)|) && Cancelled(memory))
      ensures old(Cancelled(memory)) ==> Cancelled(memory)
      ensures |script| <= |old(script)|
    {
      hide Reach, Meanwhile, FirstChoice, Interactions, WorkerOk, InFlight, ServiceCalls, NetAdded, Step,
           HandleStart, SettledSince;
      RejectFrames(env.cfg, Me(), m);
      AddInflight(1);
      ghost var since := |own|;
      HandleMessage(m);
      RejectFrames(env.cfg, Me(), m);
      ghost var before := own;
      AddInflight(-1);
      if SettledSince(env.cfg, before, since, m) {
        SettledStays(env.cfg, before, own, since, m);
        SettledSinceEarlier(env.cfg, own, since, |old(own)|, m);
      }
    }

    /**
     * The first case of the select statement: a message from the channel. On a cancelled context everything is left as
     * it was. Otherwise a rejected message is settled after the buffered ones, and a valid one joins the buffer, which
     * is settled when it is full; unless a cancellation gets in the way.
     */
    method Take(msg: Msg) returns (stopped: bool)
      requires Valid() && Me().pc == Received(msg) && Buffered() && |batchMsgs| < env.cfg.batchSize
      modifies this
      ensures Valid() && Buffered() && |batchMsgs| < env.cfg.batchSize && old(own) <= own
      ensures old(run) <= run
      ensures if stopped then Me().pc.Stopped? && Cancelled(memory) else Me().pc.Select?
      ensures stopped ==> batchMsgs == old(batchMsgs) && own == old(own) + [CtxCheck(true)]
      ensures !stopped && env.cfg.parse(msg.payload).Err? ==>
                && batchMsgs == []
                && (Cancelled(memory)
                    || (&& AllSettled(env.cfg, own, |old(own)|, old(batchMsgs))
                        && SettledSince(env.cfg, own, |old(own)|, msg)))
      ensures !stopped && env.cfg.parse(msg.payload).Ok? ==>
                if |old(batchMsgs)| + 1 < env.cfg.batchSize then
                  batchMsgs == old(batchMsgs) + [msg] && own == old(own) + [CtxCheck(false)]
                else
                  && batchMsgs == []
                  && (Cancelled(memory) || AllSettled(env.cfg, own, |old(own)|, old(batchMsgs) + [msg]))
      ensures |script| <= |old(script)|
    {
      hide Reach, Meanwhile, FirstChoice, Interactions, WorkerOk, InFlight, ServiceCalls, NetAdded, Step, TxsOf,
           AllSettled, SettledSince, NoCommit;
      ReceivedOutcomes(env.cfg, Me(), msg);
      var cancelled := CtxErr();
      if cancelled {
        return true;
      }
      NoTxs(env.cfg);
      var parsed := env.cfg.parse(msg.payload);
      if parsed.Err? {
        Flush();
        ghost var flushed := own;
        Reject(msg);
        if !Cancelled(memory) {
          AllSettledSinceEarlier(env.cfg, flushed, |old(own)| + 1, |old(own)|, old(batchMsgs));
          AllSettledStay(env.cfg, flushed, own, |old(own)|, old(batchMsgs));
          SettledSinceEarlier(env.cfg, own, |flushed|, |old(own)|, msg);
        }
      } else {
        TxsOfAppend(env.cfg, batchMsgs, msg);
        batchMsgs := batchMsgs + [msg];
        batchDomains := batchDomains + [parsed.value];
        if |batchMsgs| >= env.cfg.batchSize {
          Flush();
          if !Cancelled(memory) {
            AllSettledSinceEarlier(env.cfg, own, |old(own)| + 1, |old(own)|, old(batchMsgs) + [msg]);
          }
        }
      }
      return false;
    }

    /**
     * The worker's loop. It returns when the worker has stopped, or when there are no more choices, with the worker
     * waiting at its select statement. Between iterations the two buffers are in step and below the batch size, and
     * nothing is owed to the in-flight counter.
     */
    method Run() returns (stopped: bool)
      requires Valid() && Me() == FreshWorker && own == []
      modifies this
      ensures Valid() && Buffered()
      ensures old(run) <= run
      ensures if stopped then Me().pc.Stopped? else Me().pc.Select? && script == []
      ensures |batchMsgs| == |batchDomains| < env.cfg.batchSize
      ensures NetAdded(own) == 0
    {
      hide Reach, Meanwhile, FirstChoice, Interactions, WorkerOk, ServiceCalls, NetAdded, Step, TxsOf, AllSettled,
           SettledSince, NoCommit;
      NoTxs(env.cfg);
      batchMsgs, batchDomains := [], [];
      while true
        invariant Valid() && Me().pc.Select? && Buffered()
        invariant old(run) <= run
        invariant |batchMsgs| == |batchDomains| < env.cfg.batchSize
        decreases |script|
      {
        var input := Select();
        match input
        case Nothing =>
          return false;
        case ChannelClosed =>
          return true;
        case Ticked =>
          Flush();
        case Message(msg) =>
          stopped := Take(msg);
          if stopped {
            return;
          }
      }
    }
  }
}
