/**
 * Runs of the code as written that lose a message: wherever a partition has a valid message directly followed by a
 * rejected one, the valid one can be lost.
 */
module LosingRun {
  import opened Base
  import opened Errors
  import opened Messages
  import opened Worker
  import opened World
  import opened Pipeline
  import NoLoss
  import Window
  import Decimal
  import Domain
  import Money

  ghost predicate Reachable(env: Env, s: State) {
    exists run :: Reach(env, run) == Some(s)
  }

  lemma ReachableNext(env: Env, s: State, a: Action)
    requires Reachable(env, s) && Next(env, s, a).Some?
    ensures Reachable(env, Next(env, s, a).value)
  {
    hide Next;
    var run :| Reach(env, run) == Some(s);
    assert (run + [a])[..|run|] == run;
    assert Reach(env, run + [a]) == Next(env, s, a);
  }

  /**
   * The first k messages of partition p have been delivered to its worker, which is w; nothing has been stored, and
   * message o of the partition has not been dead-lettered.
   */
  ghost predicate Poised(env: Env, s: State, p: nat, o: nat, k: nat, w: Worker) {
    && Reachable(env, s) && p < |s.parts| == |env.logs| && k <= |env.logs[p]|
    && s.loop.Fetching? && s.world.table == []
    && (forall l :: l in s.world.dlq ==> l.msg.partition == p && l.msg.offset != o)
    && s.parts[p].queue == [] && s.parts[p].closed == 0 && s.parts[p].position == k
    && s.parts[p].worker == (if k == 0 then None else Some(w)) && (k == 0 ==> w == FreshWorker)
  }

  /** The interactions of the run: no call is applied but dead letters of other messages, and commits. */
  predicate Harmless(env: Env, p: nat, o: nat, cancelled: bool, ev: Event) {
    match ev
    case CtxCheck(c) => c == cancelled
    case BulkService(_, r) => !Applied(r)
    case Service(_, r) => !Applied(r) && Unmixed(ev)
    case WriteDlq(m, _, r) => r == Written && env.cfg.hasWriter && m.partition == p && m.offset != o
    case Receive(_) => false
    case ReceiveClosed => false
    case _ => true
  }

  /** The worker performs ev. */
  lemma Act(env: Env, s: State, p: nat, o: nat, k: nat, w: Worker, ev: Event, w': Worker) returns (s': State)
    requires Poised(env, s, p, o, k, w) && k > 0
    requires Step(env.cfg, w, ev) == Some(w') && Harmless(env, p, o, Cancelled(s), ev)
    ensures Poised(env, s', p, o, k, w') && Cancelled(s') == Cancelled(s)
    ensures s'.parts[p].committed == CommittedAfter(s.parts[p].committed, ev)
  {
    hide Step, Reachable, CommittedAfter;
    s' := AfterWork(s, p, ev, w');
    assert Next(env, s, Work(p, ev)) == Some(s');
    ReachableNext(env, s, Work(p, ev));
  }

  /** The application context is cancelled. */
  lemma Cancel(env: Env, s: State, p: nat, o: nat, k: nat, w: Worker) returns (s': State)
    requires Poised(env, s, p, o, k, w)
    ensures Poised(env, s', p, o, k, w) && Cancelled(s')
  {
    hide Reachable;
    s' := Next(env, s, CancelApp).value;
    ReachableNext(env, s, CancelApp);
  }

  /** The next message is fetched, delivered and received. */
  lemma Deliver(env: Env, s: State, p: nat, o: nat, k: nat, w: Worker) returns (s': State)
    requires Poised(env, s, p, o, k, w) && w.pc.Select? && k < |env.logs[p]|
    ensures Poised(env, s', p, o, k + 1, w.(pc := Received(MsgAt(env, p, k)))) && Cancelled(s') == Cancelled(s)
  {
    hide Reachable, Step;
    var m := MsgAt(env, p, k);
    var s1 := FetchNext(env, s, p).value;
    ReachableNext(env, s, Fetch(p));
    var s2 := SendNext(s1).value;
    ReachableNext(env, s1, Send);
    assert s2.parts[p].queue == [m] && s2.parts[p].worker == Some(w);
    ReceiveStep(env.cfg, w, m);
    s' := AfterWork(s2, p, Receive(m), w.(pc := Received(m)));
    assert Next(env, s2, Work(p, Receive(m))) == Some(s');
    ReachableNext(env, s2, Work(p, Receive(m)));
  }

  lemma ReceiveStep(cfg: Config, w: Worker, m: Msg)
    requires w.pc.Select?
    ensures Step(cfg, w, Receive(m)) == Some(w.(pc := Received(m)))
  {
  }

  // ---------------------------------------------------------------------------------------------------------
  // Up to the message that is to be lost: everything is dead-lettered
  // ---------------------------------------------------------------------------------------------------------

  /** A worker waiting with an empty buffer. */
  predicate Idle(w: Worker) {
    w.pc.Select? && w.batch == []
  }

  const REFUSED: Error := Other("refused")

  lemma RefusedIsTerminal()
    ensures !Retryable(REFUSED) && !IsContextError(NonRetryable(REFUSED)) && !Mixed(REFUSED)
  {
    ClassifyByLeaves(REFUSED);
    TerminalIsShutdownIff(REFUSED, 0);
  }

  /** The worker with one message in its buffer. */
  function Flushing(m: Msg, pc: Pc): Worker {
    Worker(pc, [m], ToSelect, false)
  }

  function Handling(m: Msg, h: HandlePc): Worker {
    Flushing(m, Handle(h, m, FromFallback(0)))
  }

  /** A flush of one message whose bulk insert is refused. */
  lemma RefusedBulk(cfg: Config, w: Worker, m: Msg)
    requires w.pc.Select? && w.batch == [m] && Normalized(cfg)
    ensures Step(cfg, w, Tick) == Some(Flushing(m, FlushEnter))
    ensures Step(cfg, Flushing(m, FlushEnter), Add(1)) == Some(Flushing(m, BulkCall(0)))
    ensures Step(cfg, Flushing(m, BulkCall(0)), BulkService(TxsOf(cfg, [m]), Refused(REFUSED, false)))
         == Some(Flushing(m, BulkFailed(0, REFUSED)))
    ensures Step(cfg, Flushing(m, BulkFailed(0, REFUSED)), CtxCheck(false)) == Some(Flushing(m, FallbackEnter))
    ensures Step(cfg, Flushing(m, FallbackEnter), Add(-1)) == Some(Flushing(m, FallbackLoop(0)))
  {
    RefusedIsTerminal();
    hide Retryable, TxsOf;
  }

  /** Its fallback, in which the message is refused again and dead-lettered. */
  lemma RefusedMessage(cfg: Config, m: Msg)
    requires Valid(cfg, m)
    ensures Step(cfg, Flushing(m, FallbackLoop(0)), Add(1)) == Some(Handling(m, ServiceCall(0)))
    ensures Step(cfg, Handling(m, ServiceCall(0)), Service(TxOf(cfg, m), Refused(REFUSED, false)))
         == Some(Handling(m, ServiceFailed(0, REFUSED)))
    ensures Step(cfg, Handling(m, ServiceFailed(0, REFUSED)), CtxCheck(false))
         == Some(Handling(m, DlqCall(NonRetryable(REFUSED))))
  {
    RefusedIsTerminal();
    hide Retryable, IsContextError;
  }

  lemma RefusedLetter(cfg: Config, m: Msg)
    ensures Step(cfg, Handling(m, DlqCall(NonRetryable(REFUSED))), WriteDlq(m, NonRetryable(REFUSED), Written))
         == Some(Handling(m, CommitCall))
    ensures Step(cfg, Handling(m, CommitCall), Commit([m], Done)) == Some(Flushing(m, HandleExit(FromFallback(0))))
  {
  }

  lemma RefusedEnd(cfg: Config, m: Msg)
    ensures Step(cfg, Flushing(m, HandleExit(FromFallback(0))), Add(-1)) == Some(Flushing(m, FallbackLoop(1)))
    ensures Step(cfg, Flushing(m, FallbackLoop(1)), Add(1)) == Some(Flushing(m, FlushExit))
    ensures Step(cfg, Flushing(m, FlushExit), Add(-1)) == Some(FreshWorker)
  {
  }

  /** A flush by a tick, up to its fallback. */
  lemma RefuseBulk(env: Env, s: State, p: nat, o: nat, k: nat, w: Worker, m: Msg) returns (s': State)
    requires EnvOk(env) && Poised(env, s, p, o, k, w) && k > 0 && !Cancelled(s) && w.pc.Select? && w.batch == [m]
    ensures Poised(env, s', p, o, k, Flushing(m, FallbackLoop(0))) && !Cancelled(s')
  {
    hide Step, Poised, TxsOf;
    RefusedBulk(env.cfg, w, m);
    s' := Act(env, s, p, o, k, w, Tick, Flushing(m, FlushEnter));
    s' := Act(env, s', p, o, k, Flushing(m, FlushEnter), Add(1), Flushing(m, BulkCall(0)));
    s' := Act(env, s', p, o, k, Flushing(m, BulkCall(0)), BulkService(TxsOf(env.cfg, [m]), Refused(REFUSED, false)),
              Flushing(m, BulkFailed(0, REFUSED)));
    s' := Act(env, s', p, o, k, Flushing(m, BulkFailed(0, REFUSED)), CtxCheck(false), Flushing(m, FallbackEnter));
    s' := Act(env, s', p, o, k, Flushing(m, FallbackEnter), Add(-1), Flushing(m, FallbackLoop(0)));
  }

  /** The fallback, up to the dead letter. */
  lemma RefuseMessage(env: Env, s: State, p: nat, o: nat, k: nat, m: Msg) returns (s': State)
    requires Poised(env, s, p, o, k, Flushing(m, FallbackLoop(0))) && k > 0 && !Cancelled(s) && Valid(env.cfg, m)
    ensures Poised(env, s', p, o, k, Handling(m, DlqCall(NonRetryable(REFUSED)))) && !Cancelled(s')
  {
    hide Step, Poised, TxOf;
    RefusedMessage(env.cfg, m);
    RefusedIsTerminal();
    s' := Act(env, s, p, o, k, Flushing(m, FallbackLoop(0)), Add(1), Handling(m, ServiceCall(0)));
    s' := Act(env, s', p, o, k, Handling(m, ServiceCall(0)), Service(TxOf(env.cfg, m), Refused(REFUSED, false)),
              Handling(m, ServiceFailed(0, REFUSED)));
    s' := Act(env, s', p, o, k, Handling(m, ServiceFailed(0, REFUSED)), CtxCheck(false),
              Handling(m, DlqCall(NonRetryable(REFUSED))));
  }

  /** A buffered message is flushed by a tick, refused and dead-lettered. */
  lemma DeadLetterValid(env: Env, s: State, p: nat, o: nat, k: nat, w: Worker, m: Msg) returns (s': State)
    requires EnvOk(env) && env.cfg.hasWriter && Valid(env.cfg, m) && m.partition == p && m.offset != o
    requires Poised(env, s, p, o, k, w) && k > 0 && !Cancelled(s) && w.pc.Select? && w.batch == [m]
    ensures Poised(env, s', p, o, k, FreshWorker) && !Cancelled(s')
  {
    hide Step, Poised;
    s' := RefuseBulk(env, s, p, o, k, w, m);
    s' := RefuseMessage(env, s', p, o, k, m);
    RefusedLetter(env.cfg, m);
    RefusedEnd(env.cfg, m);
    s' := Act(env, s', p, o, k, Handling(m, DlqCall(NonRetryable(REFUSED))),
              WriteDlq(m, NonRetryable(REFUSED), Written), Handling(m, CommitCall));
    s' := Act(env, s', p, o, k, Handling(m, CommitCall), Commit([m], Done), Flushing(m, HandleExit(FromFallback(0))));
    s' := Act(env, s', p, o, k, Flushing(m, HandleExit(FromFallback(0))), Add(-1), Flushing(m, FallbackLoop(1)));
    s' := Act(env, s', p, o, k, Flushing(m, FallbackLoop(1)), Add(1), Flushing(m, FlushExit));
    s' := Act(env, s', p, o, k, Flushing(m, FlushExit), Add(-1), FreshWorker);
  }

  /** A worker at a rejected message dead-letters and commits it, whether the context is cancelled or not. */
  lemma DeadLetterRejected(env: Env, s: State, p: nat, o: nat, k: nat, w: Worker, m: Msg)
    returns (s': State, w': Worker)
    requires env.cfg.hasWriter && !Valid(env.cfg, m) && m.partition == p && m.offset != o
    requires Poised(env, s, p, o, k, w) && k > 0 && w.pc == RejectEnter(m) && w.batch == []
    ensures Poised(env, s', p, o, k, w') && Cancelled(s') == Cancelled(s) && Idle(w')
    ensures s'.parts[p].committed == m.offset + 1
  {
    var w1, w2, w3 := Window.ThroughWorker(env.cfg, w, m);
    RejectEnds(env.cfg, w, m, w1, w2, w3);
    w' := w3.(pc := Pc.Select);
    hide Step, Poised;
    s' := Act(env, s, p, o, k, w, Add(1), w1);
    s' := Act(env, s', p, o, k, w1, WriteDlq(m, NonRetryable(env.cfg.parse(m.payload).error), Written), w2);
    s' := Act(env, s', p, o, k, w2, Commit([m], Done), w3);
    s' := Act(env, s', p, o, k, w3, Add(-1), w');
  }

  lemma RejectEnds(cfg: Config, w: Worker, m: Msg, w1: Worker, w2: Worker, w3: Worker)
    requires w.pc == RejectEnter(m) && !Valid(cfg, m) && w.batch == []
    requires Step(cfg, w, Add(1)) == Some(w1)
    requires Step(cfg, w1, WriteDlq(m, NonRetryable(cfg.parse(m.payload).error), Written)) == Some(w2)
    requires Step(cfg, w2, Commit([m], Done)) == Some(w3)
    ensures w3.batch == [] && Step(cfg, w3, Add(-1)) == Some(w3.(pc := Pc.Select))
  {
  }

  /** What the worker does with a received message, when its buffer is empty. */
  lemma ParseStep(cfg: Config, w: Worker, m: Msg)
    requires w.pc == Received(m) && w.batch == [] && cfg.batchSize >= 2 && !cfg.recheckAfterFlush
    ensures Step(cfg, w, CtxCheck(false))
         == Some(if Valid(cfg, m) then w.(pc := Pc.Select, batch := [m])
                 else w.(pc := RejectEnter(m), ret := ToReject(m), aborted := false))
  {
    assert w.batch + [m] == [m];
  }

  predicate Lossy(cfg: Config) {
    cfg.batchSize >= 2 && cfg.hasWriter && !cfg.recheckAfterFlush
  }

  /** All messages before the k-th can be dead-lettered, with nothing stored. */
  lemma {:induction false} SkipTo(env: Env, p: nat, o: nat, k: nat) returns (s: State, w: Worker)
    requires EnvOk(env) && Lossy(env.cfg) && p < |env.logs| && k <= o && k <= |env.logs[p]|
    ensures Poised(env, s, p, o, k, w) && !Cancelled(s) && Idle(w)
  {
    if k == 0 {
      s, w := Init(env), FreshWorker;
      assert Reach(env, []) == Some(s);
    } else {
      s, w := SkipTo(env, p, o, k - 1);
      var m := MsgAt(env, p, k - 1);
      var w1 := w.(pc := Received(m));
      ParseStep(env.cfg, w1, m);
      hide Poised, Step;
      if Valid(env.cfg, m) {
        s := Take(env, s, p, o, k - 1, w, w.(batch := [m]));
        s := DeadLetterValid(env, s, p, o, k, w.(batch := [m]), m);
        w := FreshWorker;
      } else {
        var w2 := w1.(pc := RejectEnter(m), ret := ToReject(m), aborted := false);
        s := Take(env, s, p, o, k - 1, w, w2);
        s, w := DeadLetterRejected(env, s, p, o, k, w2, m);
      }
    }
  }

  // ---------------------------------------------------------------------------------------------------------
  // The loss
  // ---------------------------------------------------------------------------------------------------------

  /** Message o is valid, and the message directly behind it is rejected. */
  predicate Pair(env: Env, p: nat, o: nat) {
    p < |env.logs| && o + 1 < |env.logs[p]| && Valid(env.cfg, MsgAt(env, p, o)) && !Valid(env.cfg, MsgAt(env, p, o + 1))
  }

  /** A flush of one message forced by a rejected one. */
  function Forced(m: Msg, m': Msg, pc: Pc): Worker {
    Worker(pc, [m], ToReject(m'), false)
  }

  lemma AbortSteps(cfg: Config, m: Msg, m': Msg)
    requires !cfg.recheckAfterFlush
    ensures Step(cfg, Forced(m, m', FlushEnter), Add(1)) == Some(Forced(m, m', BulkCall(0)))
    ensures Step(cfg, Forced(m, m', BulkCall(0)), BulkService(TxsOf(cfg, [m]), Refused(DBUnavailable, false)))
         == Some(Forced(m, m', BulkFailed(0, DBUnavailable)))
    ensures Step(cfg, Forced(m, m', BulkFailed(0, DBUnavailable)), CtxCheck(true))
         == Some(Forced(m, m', FlushExit).(aborted := true))
    ensures Step(cfg, Forced(m, m', FlushExit).(aborted := true), Add(-1))
         == Some(Worker(RejectEnter(m'), [], ToReject(m'), true))
  {
  }

  /** The forced flush is cut short by a cancellation, and the worker goes on to the rejected message. */
  lemma FlushAborted(env: Env, s: State, p: nat, o: nat, k: nat, m: Msg, m': Msg) returns (s': State)
    requires !env.cfg.recheckAfterFlush && Poised(env, s, p, o, k, Forced(m, m', FlushEnter)) && k > 0 && !Cancelled(s)
    ensures Poised(env, s', p, o, k, Worker(RejectEnter(m'), [], ToReject(m'), true)) && Cancelled(s')
  {
    AbortSteps(env.cfg, m, m');
    hide Step, Poised, TxsOf;
    s' := Act(env, s, p, o, k, Forced(m, m', FlushEnter), Add(1), Forced(m, m', BulkCall(0)));
    s' := Act(env, s', p, o, k, Forced(m, m', BulkCall(0)),
              BulkService(TxsOf(env.cfg, [m]), Refused(DBUnavailable, false)),
              Forced(m, m', BulkFailed(0, DBUnavailable)));
    s' := Cancel(env, s', p, o, k, Forced(m, m', BulkFailed(0, DBUnavailable)));
    s' := Act(env, s', p, o, k, Forced(m, m', BulkFailed(0, DBUnavailable)), CtxCheck(true),
              Forced(m, m', FlushExit).(aborted := true));
    s' := Act(env, s', p, o, k, Forced(m, m', FlushExit).(aborted := true), Add(-1),
              Worker(RejectEnter(m'), [], ToReject(m'), true));
  }

  /**
   * The guard is needed: in any log, of any partition, a valid message directly followed by a rejected one can be
   * passed by the committed offset while it is neither stored nor dead-lettered.
   */
  lemma CodeCanLose(env: Env, p: nat, o: nat) returns (run: seq<Action>)
    requires EnvOk(env) && Lossy(env.cfg) && Pair(env, p, o)
    ensures Reach(env, run).Some? && !NoLoss.NothingLost(env, Reach(env, run).value)
    ensures var s := Reach(env, run).value;
            && p < |s.parts| && s.parts[p].committed == o + 2
            && !Safe(env.cfg, s.world, MsgAt(env, p, o))
  {
    var m, m' := MsgAt(env, p, o), MsgAt(env, p, o + 1);
    var s, w := SkipTo(env, p, o, o);
    s, w := ForceFlush(env, s, p, o, w);
    s := FlushAborted(env, s, p, o, o + 2, m, m');
    s, w := DeadLetterRejected(env, s, p, o, o + 2, Worker(RejectEnter(m'), [], ToReject(m'), true), m');
    hide Reach, Step;
    assert !Safe(env.cfg, s.world, m);
    assert !NoLoss.SafeBelow(env, s.world, p, o + 2);
    run :| Reach(env, run) == Some(s);
  }

  /** The valid message is buffered, and the rejected one forces the flush. */
  lemma ForceFlush(env: Env, s: State, p: nat, o: nat, w: Worker) returns (s': State, w': Worker)
    requires EnvOk(env) && Lossy(env.cfg) && Pair(env, p, o)
    requires Poised(env, s, p, o, o, w) && !Cancelled(s) && Idle(w)
    ensures w' == Forced(MsgAt(env, p, o), MsgAt(env, p, o + 1), FlushEnter)
    ensures Poised(env, s', p, o, o + 2, w') && !Cancelled(s')
  {
    var m := MsgAt(env, p, o);
    hide Poised, Step;
    s' := Take(env, s, p, o, o, w, w.(batch := [m])) by {
      ParseStep(env.cfg, w.(pc := Received(m)), m);
    }
    w' := Forced(m, MsgAt(env, p, o + 1), FlushEnter);
    s' := Take(env, s', p, o, o + 1, w.(batch := [m]), w') by {
      FullParse(env.cfg, w.(batch := [m], pc := Received(MsgAt(env, p, o + 1))), MsgAt(env, p, o + 1));
    }
  }

  /** The next message is delivered and parsed. */
  lemma Take(env: Env, s: State, p: nat, o: nat, k: nat, w: Worker, w': Worker) returns (s': State)
    requires Poised(env, s, p, o, k, w) && !Cancelled(s) && w.pc.Select? && p < |env.logs| && k < |env.logs[p]|
    requires Step(env.cfg, w.(pc := Received(MsgAt(env, p, k))), CtxCheck(false)) == Some(w')
    ensures Poised(env, s', p, o, k + 1, w') && !Cancelled(s')
  {
    hide Poised, Step;
    s' := Deliver(env, s, p, o, k, w);
    s' := Act(env, s', p, o, k + 1, w.(pc := Received(MsgAt(env, p, k))), CtxCheck(false), w');
  }

  lemma FullParse(cfg: Config, w: Worker, m: Msg)
    requires w.pc == Received(m) && w.batch != [] && !Valid(cfg, m)
    ensures Step(cfg, w, CtxCheck(false)) == Some(w.(pc := FlushEnter, ret := ToReject(m), aborted := false))
  {
  }

  /** One bet, then a payload that is not JSON, with the parser of the code and its default settings. */
  const TWO_MESSAGES: Env := Env(
    Config(Parse, 100, 3, true, false),
    [[Decoded(TransactionDTO(1, Domain.BET, Decimal.IntText(1050), 0)), Malformed]])

  lemma TwoMessagesAreAPair()
    ensures EnvOk(TWO_MESSAGES) && Lossy(TWO_MESSAGES.cfg) && Pair(TWO_MESSAGES, 0, 0)
  {
    hide Money.ParseToMinorUnits;
    Money.IntTextParses(1050);
    var m := MsgAt(TWO_MESSAGES, 0, 0);
    assert Parse(m.payload) == Ok(Domain.Transaction(1, Domain.BET, 1050, 0));
    assert Parse(MsgAt(TWO_MESSAGES, 0, 1).payload).Err?;
  }

  /** So two messages, the default settings and a configured dead-letter topic are enough. */
  lemma DefaultsCanLose() returns (run: seq<Action>)
    ensures Reach(TWO_MESSAGES, run).Some? && !NoLoss.NothingLost(TWO_MESSAGES, Reach(TWO_MESSAGES, run).value)
  {
    hide Reach, NoLoss.NothingLost, Safe;
    TwoMessagesAreAPair();
    hide Pair;
    run := CodeCanLose(TWO_MESSAGES, 0, 0);
  }
}
