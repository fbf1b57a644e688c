/**
 * The control flow of one partition worker, as an automaton whose labels are the worker's interactions with the
 * outside: channel receives, ticks, context checks, service, dead-letter and commit calls, and atomic additions to
 * the in-flight counter. Everything between two interactions is folded into the step of the first.
 */
module Worker {
  import opened Base
  import opened Errors
  import Domain
  import opened Messages

  /**
   * The parser and the normalised settings. recheckAfterFlush selects a variant of partitionWorker that looks at the
   * application context once more between the flush that precedes a rejected message and the handling of that message;
   * the source behaves as with false.
   */
  datatype Config = Config(parse: Parser, batchSize: int, maxProcessRetries: int, hasWriter: bool,
      recheckAfterFlush: bool)

  predicate Normalized(cfg: Config) {
    cfg.batchSize >= 1 && cfg.maxProcessRetries >= 0
  }

  predicate Valid(cfg: Config, m: Msg) {
    cfg.parse(m.payload).Ok?
  }

  /** The parsed transaction; Go's zero value when the message is rejected. */
  function TxOf(cfg: Config, m: Msg): Domain.Transaction {
    match cfg.parse(m.payload)
    case Ok(t) => t
    case Err(_) => Domain.ZERO_TRANSACTION
  }

  function TxsOf(cfg: Config, ms: seq<Msg>): (ts: seq<Domain.Transaction>)
    ensures |ts| == |ms|
    ensures forall i :: 0 <= i < |ms| ==> ts[i] == TxOf(cfg, ms[i])
  {
    seq(|ms|, i requires 0 <= i < |ms| => TxOf(cfg, ms[i]))
  }

  /** Outcome of a call that may fail after it took effect. */
  datatype CallResult = Done | Failed(applied: bool)

  datatype ServiceResult = Stored | Refused(error: Error, applied: bool)

  datatype DlqResult = Written | NotConfigured | WriteFailed(applied: bool)

  datatype Event =
    | Receive(m: Msg)
    | ReceiveClosed
    | Tick
    | CtxCheck(cancelled: bool)
    | BulkService(txs: seq<Domain.Transaction>, bulkResult: ServiceResult)
    | Service(tx: Domain.Transaction, result: ServiceResult)
    | WriteDlq(letter: Msg, reason: Error, dlqResult: DlqResult)
    | Commit(msgs: seq<Msg>, commitResult: CallResult)
    | Add(delta: int)

  /** Where flush returns to: the select loop, or the rejected message that forced it. */
  datatype Return = ToSelect | ToReject(rejected: Msg)

  /** Who called handleMessage: the i-th turn of the fallback loop, or the rejection branch. */
  datatype Caller = FromFallback(i: nat) | FromReject

  datatype HandlePc =
    | ServiceCall(attempt: nat)
    | ServiceFailed(attempt: nat, error: Error)
    | DlqCall(reason: Error)
    | DlqFailed(reason: Error)
    | CommitCall
    | CommitFailed

  datatype Pc =
    | Select
    | Received(m: Msg)
    | FlushEnter
    | BulkCall(attempt: nat)
    | BulkFailed(attempt: nat, error: Error)
    | BulkCommit
    | BulkCommitFailed
    | FallbackEnter
    | FallbackLoop(i: nat)
    | FlushExit
    | RejectRecheck(m: Msg)
    | RejectEnter(m: Msg)
    | Handle(h: HandlePc, m: Msg, caller: Caller)
    | HandleExit(caller: Caller)
    | Stopped

  /** ret is where the current flush returns to; aborted records that the latest flush gave up before its end. */
  datatype Worker = Worker(pc: Pc, batch: seq<Msg>, ret: Return, aborted: bool)

  const FreshWorker := Worker(Select, [], ToSelect, false)

  function BeginFlush(cfg: Config, w: Worker, ret: Return): Worker {
    var w1 := w.(ret := ret, aborted := false);
    if w.batch == [] then EndFlush(cfg, w1) else w1.(pc := FlushEnter)
  }

  function EndFlush(cfg: Config, w: Worker): Worker {
    match w.ret
    case ToSelect => w.(pc := Select)
    case ToReject(m) => w.(pc := if cfg.recheckAfterFlush then RejectRecheck(m) else RejectEnter(m))
  }

  /** The first interaction of handleMessage: a service call, or the dead-letter queue for a rejected message. */
  function HandleStart(cfg: Config, m: Msg): HandlePc {
    match cfg.parse(m.payload)
    case Ok(_) => ServiceCall(0)
    case Err(e) => DlqCall(NonRetryable(e))
  }

  function HandleAt(cfg: Config, w: Worker, m: Msg, caller: Caller): Worker {
    w.(pc := Handle(HandleStart(cfg, m), m, caller))
  }

  /** handleMessage returns without committing. */
  function GiveUp(w: Worker, caller: Caller): Worker {
    w.(pc := HandleExit(caller), aborted := w.aborted || caller.FromFallback?)
  }

  /** handleMessage after processMessageWithRetries returned an error. */
  function AfterProcessError(w: Worker, m: Msg, caller: Caller, e: Error): Worker {
    if IsContextError(e) then GiveUp(w, caller) else w.(pc := Handle(DlqCall(e), m, caller))
  }

  function HandleStep(cfg: Config, w: Worker, h: HandlePc, m: Msg, caller: Caller, ev: Event): Option<Worker> {
    match h
    case ServiceCall(a) =>
      if !ev.Service? || ev.tx != TxOf(cfg, m) then None
      else if ev.result.Stored? then Some(w.(pc := Handle(CommitCall, m, caller)))
      else Some(w.(pc := Handle(ServiceFailed(a, ev.result.error), m, caller)))
    case ServiceFailed(a, e) =>
      if !ev.CtxCheck? then None
      else if ev.cancelled then Some(AfterProcessError(w, m, caller, Canceled))
      else if !Retryable(e) then Some(AfterProcessError(w, m, caller, NonRetryable(e)))
      else if a >= cfg.maxProcessRetries then Some(AfterProcessError(w, m, caller, ProcessFailed(a + 1, e)))
      else Some(w.(pc := Handle(ServiceCall(a + 1), m, caller)))
    case DlqCall(e) =>
      if !ev.WriteDlq? || ev.letter != m || ev.reason != e then None
      else if ev.dlqResult.Written? then Some(w.(pc := Handle(CommitCall, m, caller)))
      else if ev.dlqResult.NotConfigured? then Some(GiveUp(w, caller))
      else Some(w.(pc := Handle(DlqFailed(e), m, caller)))
    case DlqFailed(e) =>
      if !ev.CtxCheck? then None
      else Some(if ev.cancelled then GiveUp(w, caller) else w.(pc := Handle(DlqCall(e), m, caller)))
    case CommitCall =>
      if !ev.Commit? || ev.msgs != [m] then None
      else if ev.commitResult.Done? then Some(w.(pc := HandleExit(caller)))
      else Some(w.(pc := Handle(CommitFailed, m, caller)))
    case CommitFailed =>
      if !ev.CtxCheck? then None
      else Some(if ev.cancelled then GiveUp(w, caller) else w.(pc := Handle(CommitCall, m, caller)))
  }

  /** The select loop, up to the point where a batch is full or a message is rejected. */
  function ReceivedStep(cfg: Config, w: Worker, m: Msg, cancelled: bool): Worker {
    if cancelled then w.(pc := Stopped)
    else if !Valid(cfg, m) then BeginFlush(cfg, w, ToReject(m))
    else
      var w1 := w.(pc := Select, batch := w.batch + [m]);
      if |w1.batch| >= cfg.batchSize then BeginFlush(cfg, w1, ToSelect) else w1
  }

  function SelectStep(cfg: Config, w: Worker, ev: Event): Option<Worker> {
    match ev
    case Receive(m) => Some(w.(pc := Received(m)))
    case ReceiveClosed => Some(w.(pc := Stopped))
    case Tick => Some(BeginFlush(cfg, w, ToSelect))
    case _ => None
  }

  /** flushBatch up to its fallback: the bulk insert with its retries, and the bulk commit. */
  function BulkStep(cfg: Config, w: Worker, ev: Event): Option<Worker> {
    match w.pc
    case FlushEnter =>
      if ev == Add(|w.batch|) then Some(w.(pc := BulkCall(0))) else None
    case BulkCall(a) =>
      if !ev.BulkService? || ev.txs != TxsOf(cfg, w.batch) then None
      else if ev.bulkResult.Stored? then Some(w.(pc := BulkCommit))
      else Some(w.(pc := BulkFailed(a, ev.bulkResult.error)))
    case BulkFailed(a, e) =>
      if !ev.CtxCheck? then None
      else if ev.cancelled then Some(w.(pc := FlushExit, aborted := true))
      else if !Retryable(e) || a >= cfg.maxProcessRetries then Some(w.(pc := FallbackEnter))
      else Some(w.(pc := BulkCall(a + 1)))
    case BulkCommit =>
      if !ev.Commit? || ev.msgs != w.batch then None
      else if ev.commitResult.Done? then Some(w.(pc := FlushExit))
      else Some(w.(pc := BulkCommitFailed))
    case BulkCommitFailed =>
      if !ev.CtxCheck? then None
      else Some(if ev.cancelled then w.(pc := FlushExit, aborted := true) else w.(pc := BulkCommit))
    case _ => None
  }

  /** The bookkeeping around handleMessage: the fallback loop, the end of a flush, and the rejection branch. */
  function FrameStep(cfg: Config, w: Worker, ev: Event): Option<Worker> {
    match w.pc
    case FallbackEnter =>
      if ev == Add(-|w.batch|) then Some(w.(pc := FallbackLoop(0))) else None
    case FallbackLoop(i) =>
      if i < |w.batch| then
        if ev == Add(1) then Some(HandleAt(cfg, w, w.batch[i], FromFallback(i))) else None
      else
        if ev == Add(|w.batch|) then Some(w.(pc := FlushExit)) else None
    case FlushExit =>
      if ev == Add(-|w.batch|) then Some(EndFlush(cfg, w.(batch := []))) else None
    case RejectRecheck(m) =>
      if ev.CtxCheck? then Some(w.(pc := if ev.cancelled then Stopped else RejectEnter(m))) else None
    case RejectEnter(m) =>
      if ev == Add(1) then Some(HandleAt(cfg, w, m, FromReject)) else None
    case HandleExit(FromFallback(i)) =>
      if ev == Add(-1) then Some(w.(pc := FallbackLoop(i + 1))) else None
    case HandleExit(FromReject) =>
      if ev == Add(-1) then Some(w.(pc := Select)) else None
    case _ => None
  }

  predicate InBulk(pc: Pc) {
    pc.FlushEnter? || pc.BulkCall? || pc.BulkFailed? || pc.BulkCommit? || pc.BulkCommitFailed?
  }

  /** One step of the worker; None when the interaction is not the one the code performs here. */
  function Step(cfg: Config, w: Worker, ev: Event): Option<Worker> {
    match w.pc
    case Select => SelectStep(cfg, w, ev)
    case Received(m) => if ev.CtxCheck? then Some(ReceivedStep(cfg, w, m, ev.cancelled)) else None
    case Handle(h, m, caller) => HandleStep(cfg, w, h, m, caller, ev)
    case _ => if InBulk(w.pc) then BulkStep(cfg, w, ev) else FrameStep(cfg, w, ev)
  }

  // ---------------------------------------------------------------------------------------------------------
  // What every worker state looks like
  // ---------------------------------------------------------------------------------------------------------

  predicate AllValid(cfg: Config, ms: seq<Msg>) {
    forall i :: 0 <= i < |ms| ==> Valid(cfg, ms[i])
  }

  predicate FlushOk(cfg: Config, w: Worker) {
    && 1 <= |w.batch| <= cfg.batchSize
    && (w.ret.ToReject? ==> !Valid(cfg, w.ret.rejected) && |w.batch| < cfg.batchSize)
  }

  /** The service answers with no error that is retried and then taken for a shutdown. */
  predicate Unmixed(ev: Event) {
    ev.Service? && ev.result.Refused? ==> !Mixed(ev.result.error)
  }

  predicate HandleOk(cfg: Config, h: HandlePc, m: Msg) {
    match h
    case ServiceCall(a) => Valid(cfg, m) && a <= cfg.maxProcessRetries
    case ServiceFailed(a, e) => Valid(cfg, m) && a <= cfg.maxProcessRetries && !Mixed(e)
    case _ => true
  }

  predicate CallerOk(cfg: Config, w: Worker, m: Msg, caller: Caller) {
    match caller
    case FromFallback(i) => FlushOk(cfg, w) && i < |w.batch| && m == w.batch[i]
    case FromReject => w.batch == [] && !Valid(cfg, m)
  }

  /** The local invariant: bounded buffer of valid messages, and a pc that fits it. */
  predicate WorkerOk(cfg: Config, w: Worker) {
    && AllValid(cfg, w.batch)
    && match w.pc
       case Select => |w.batch| < cfg.batchSize
       case Received(_) => |w.batch| < cfg.batchSize
       case FlushEnter => FlushOk(cfg, w)
       case BulkCall(a) => FlushOk(cfg, w) && a <= cfg.maxProcessRetries
       case BulkFailed(a, _) => FlushOk(cfg, w) && a <= cfg.maxProcessRetries
       case BulkCommit => FlushOk(cfg, w)
       case BulkCommitFailed => FlushOk(cfg, w)
       case FallbackEnter => FlushOk(cfg, w)
       case FallbackLoop(i) => FlushOk(cfg, w) && i <= |w.batch|
       case FlushExit => FlushOk(cfg, w)
       case RejectRecheck(m) => w.batch == [] && !Valid(cfg, m)
       case RejectEnter(m) => w.batch == [] && !Valid(cfg, m)
       case Handle(h, m, caller) => CallerOk(cfg, w, m, caller) && HandleOk(cfg, h, m)
       case HandleExit(FromFallback(i)) => FlushOk(cfg, w) && i < |w.batch|
       case HandleExit(FromReject) => w.batch == []
       case Stopped => true
  }

  lemma HandleStaysHandling(cfg: Config, w: Worker, h: HandlePc, m: Msg, caller: Caller, ev: Event)
    requires HandleStep(cfg, w, h, m, caller, ev).Some?
    ensures var w' := HandleStep(cfg, w, h, m, caller, ev).value;
            && w'.batch == w.batch && w'.ret == w.ret && !ev.Add? && !ev.Receive? && !ev.ReceiveClosed?
            && (w'.pc == HandleExit(caller) || (w'.pc.Handle? && w'.pc.m == m && w'.pc.caller == caller))
  {
  }

  lemma HandleKeepsHandleOk(cfg: Config, w: Worker, h: HandlePc, m: Msg, caller: Caller, ev: Event)
    requires Normalized(cfg) && HandleOk(cfg, h, m) && HandleStep(cfg, w, h, m, caller, ev).Some? && Unmixed(ev)
    ensures var pc := HandleStep(cfg, w, h, m, caller, ev).value.pc; pc.Handle? ==> HandleOk(cfg, pc.h, m)
  {
  }

  lemma HandleKeepsWorkerOk(cfg: Config, w: Worker, h: HandlePc, m: Msg, caller: Caller, ev: Event)
    requires Normalized(cfg) && WorkerOk(cfg, w) && w.pc == Handle(h, m, caller)
    requires HandleStep(cfg, w, h, m, caller, ev).Some? && Unmixed(ev)
    ensures WorkerOk(cfg, HandleStep(cfg, w, h, m, caller, ev).value)
  {
    HandleStaysHandling(cfg, w, h, m, caller, ev);
    HandleKeepsHandleOk(cfg, w, h, m, caller, ev);
    hide HandleStep;
  }

  lemma ReceivedKeepsWorkerOk(cfg: Config, w: Worker, m: Msg, cancelled: bool)
    requires Normalized(cfg) && WorkerOk(cfg, w) && w.pc == Received(m)
    ensures WorkerOk(cfg, ReceivedStep(cfg, w, m, cancelled))
  {
  }

  lemma BulkKeepsWorkerOk(cfg: Config, w: Worker, ev: Event)
    requires Normalized(cfg) && WorkerOk(cfg, w) && InBulk(w.pc) && BulkStep(cfg, w, ev).Some?
    ensures WorkerOk(cfg, BulkStep(cfg, w, ev).value)
  {
  }

  lemma FrameKeepsWorkerOk(cfg: Config, w: Worker, ev: Event)
    requires Normalized(cfg) && WorkerOk(cfg, w) && FrameStep(cfg, w, ev).Some?
    ensures WorkerOk(cfg, FrameStep(cfg, w, ev).value)
  {
  }

  lemma StepKeepsWorkerOk(cfg: Config, w: Worker, ev: Event)
    requires Normalized(cfg) && WorkerOk(cfg, w) && Step(cfg, w, ev).Some? && Unmixed(ev)
    ensures WorkerOk(cfg, Step(cfg, w, ev).value)
  {
    match w.pc
    case Select =>
    case Received(m) => ReceivedKeepsWorkerOk(cfg, w, m, ev.cancelled);
    case Handle(h, m, caller) => HandleKeepsWorkerOk(cfg, w, h, m, caller, ev);
    case _ =>
      if InBulk(w.pc) {
        BulkKeepsWorkerOk(cfg, w, ev);
      } else {
        FrameKeepsWorkerOk(cfg, w, ev);
      }
  }

  // ---------------------------------------------------------------------------------------------------------
  // Observations
  // ---------------------------------------------------------------------------------------------------------

  /** How many messages of the batch the current flush has finished with. */
  function FinishedInBatch(w: Worker): nat {
    match w.pc
    case FallbackLoop(i) => i
    case Handle(_, _, FromFallback(i)) => i
    case HandleExit(FromFallback(i)) => i + 1
    case FlushExit => |w.batch|
    case Stopped => |w.batch|
    case _ => 0
  }

  /** The message taken from the channel that is not in the batch, if there is one. */
  function Pending(w: Worker): seq<Msg> {
    match w.pc
    case Received(m) => [m]
    case RejectRecheck(m) => [m]
    case RejectEnter(m) => [m]
    case Handle(_, m, FromReject) => [m]
    case Select => []
    case HandleExit(FromReject) => []
    case Stopped => []
    case _ => if w.ret.ToReject? then [w.ret.rejected] else []
  }

  /** The messages the worker has taken from its channel and not finished with, in order. */
  function Unfinished(w: Worker): seq<Msg> {
    (if FinishedInBatch(w) <= |w.batch| then w.batch[FinishedInBatch(w)..] else []) + Pending(w)
  }

  /** The messages that the worker is about to commit, or is retrying to commit. */
  function Committing(w: Worker): seq<Msg> {
    match w.pc
    case BulkCommit => w.batch
    case BulkCommitFailed => w.batch
    case Handle(CommitCall, m, _) => [m]
    case Handle(CommitFailed, m, _) => [m]
    case _ => []
  }

  /** What the worker has added to the in-flight counter so far, net. */
  function InFlight(w: Worker): int {
    match w.pc
    case BulkCall(_) => |w.batch|
    case BulkFailed(_, _) => |w.batch|
    case BulkCommit => |w.batch|
    case BulkCommitFailed => |w.batch|
    case FallbackEnter => |w.batch|
    case FlushExit => |w.batch|
    case Handle(_, _, _) => 1
    case HandleExit(_) => 1
    case _ => 0
  }

  lemma InFlightBounded(cfg: Config, w: Worker)
    requires Normalized(cfg) && WorkerOk(cfg, w)
    ensures 0 <= InFlight(w) <= cfg.batchSize
  {
  }

  /** Every addition to the counter is accounted for in the worker's share. */
  lemma StepAccountsInFlight(cfg: Config, w: Worker, ev: Event)
    requires Normalized(cfg) && WorkerOk(cfg, w) && Step(cfg, w, ev).Some?
    ensures InFlight(Step(cfg, w, ev).value) == InFlight(w) + (if ev.Add? then ev.delta else 0)
  {
    if w.pc.Handle? {
      HandleStaysHandling(cfg, w, w.pc.h, w.pc.m, w.pc.caller, ev);
      hide HandleStep;
    }
  }

  lemma UnfinishedBounded(cfg: Config, w: Worker)
    requires Normalized(cfg) && WorkerOk(cfg, w)
    ensures |Unfinished(w)| <= cfg.batchSize
    ensures |Committing(w)| <= |Unfinished(w)| && Committing(w) == Unfinished(w)[..|Committing(w)|]
  {
  }

  /** The only ways to drop messages: a successful commit of them, or giving up. */
  predicate MayDrop(w: Worker, ev: Event, n: nat) {
    || (ev.Commit? && ev.commitResult.Done? && n == |Committing(w)|)
    || ev == CtxCheck(true)
    || ev == ReceiveClosed
    || (ev.WriteDlq? && ev.dlqResult.NotConfigured?)
  }

  /** w' is w after ev, with the first n unfinished messages dropped. */
  ghost predicate Moves(w: Worker, ev: Event, w': Worker, n: nat) {
    && (ev.Receive? ==> n == 0 && Unfinished(w') == Unfinished(w) + [ev.m])
    && (!ev.Receive? ==> n <= |Unfinished(w)| && Unfinished(w') == Unfinished(w)[n..])
    && Justified(w, ev, n)
  }

  predicate Justified(w: Worker, ev: Event, n: nat) {
    && (n > 0 ==> MayDrop(w, ev, n))
    && (ev.Commit? ==> ev.msgs == Committing(w) && (ev.commitResult.Done? ==> n == |Committing(w)|))
  }

  /** The same without sequences: the flush advances by n, the batch is put away, or a message joins the batch. */
  predicate Shifts(w: Worker, w': Worker, n: nat) {
    var i := FinishedInBatch(w);
    var i' := FinishedInBatch(w');
    && i <= |w.batch| && i' <= |w'.batch|
    && (|| (w'.batch == w.batch && i' == i + n && Pending(w') == Pending(w))
        || (n == 0 && i == |w.batch| && i' == |w'.batch| && Pending(w') == Pending(w))
        || (n == |w.batch| - i + |Pending(w)| && i' == |w'.batch| && Pending(w') == [])
        || (n == 0 && i == 0 && i' == 0 && |Pending(w)| == 1 && Pending(w') == [] && w'.batch == w.batch + Pending(w)))
  }

  lemma ShiftsUnfinished(w: Worker, w': Worker, n: nat)
    requires Shifts(w, w', n)
    ensures n <= |Unfinished(w)| && Unfinished(w') == Unfinished(w)[n..]
  {
    hide FinishedInBatch, Pending;
    var i := FinishedInBatch(w);
    if w'.batch == w.batch && FinishedInBatch(w') == i + n && Pending(w') == Pending(w) {
      assert w.batch[i..][n..] == w.batch[i + n..];
    } else if n == 0 && i == |w.batch| && FinishedInBatch(w') == |w'.batch| {
      assert w.batch[i..] == [] && w'.batch[FinishedInBatch(w')..] == [];
    } else if FinishedInBatch(w') == |w'.batch| {
      assert w'.batch[FinishedInBatch(w')..] == [];
    } else {
      assert w.batch[0..] == w.batch && w'.batch[0..] == w'.batch;
    }
  }

  lemma HandleLeaves(cfg: Config, w: Worker, h: HandlePc, m: Msg, caller: Caller, ev: Event)
    requires w.pc == Handle(h, m, caller) && HandleStep(cfg, w, h, m, caller, ev).Some? && HandleOk(cfg, h, m)
    ensures HandleStep(cfg, w, h, m, caller, ev).value.pc.HandleExit? ==> MayDrop(w, ev, 1)
    ensures ev.Commit? ==> ev.msgs == Committing(w) == [m]
    ensures ev.Commit? ==> (ev.commitResult.Done? <==> HandleStep(cfg, w, h, m, caller, ev).value.pc.HandleExit?)
  {
    if h.ServiceFailed? {
      TerminalIsShutdownIff(h.error, h.attempt + 1);
    }
  }

  lemma AtServiceFailure(cfg: Config, w: Worker, m: Msg, caller: Caller, a: nat, e: Error)
    requires w.pc == Handle(ServiceFailed(a, e), m, caller)
    ensures Step(cfg, w, CtxCheck(false))
         == Some(if !Retryable(e) then AfterProcessError(w, m, caller, NonRetryable(e))
                 else if a >= cfg.maxProcessRetries then AfterProcessError(w, m, caller, ProcessFailed(a + 1, e))
                 else w.(pc := Handle(ServiceCall(a + 1), m, caller)))
  {
    hide Retryable, AfterProcessError;
  }

  /**
   * On a live context a message is given up after a service call if and only if that was the last attempt and its
   * error is mixed. The next commit would then pass the message, so the properties below assume that there are no such
   * errors.
   */
  lemma GivesUpLiveIff(cfg: Config, w: Worker, m: Msg, caller: Caller, a: nat, e: Error)
    requires w.pc == Handle(ServiceFailed(a, e), m, caller)
    ensures Step(cfg, w, CtxCheck(false)).Some?
    ensures Step(cfg, w, CtxCheck(false)).value.pc == HandleExit(caller) <==> a >= cfg.maxProcessRetries && Mixed(e)
  {
    hide Retryable, IsContextError, Contains, Step;
    TerminalIsShutdownIff(e, a + 1);
    AtServiceFailure(cfg, w, m, caller, a, e);
  }

  lemma HandleShifts(cfg: Config, w: Worker, h: HandlePc, m: Msg, caller: Caller, ev: Event) returns (n: nat)
    requires Normalized(cfg) && WorkerOk(cfg, w) && w.pc == Handle(h, m, caller)
    requires HandleStep(cfg, w, h, m, caller, ev).Some?
    ensures !ev.Receive?
    ensures Shifts(w, HandleStep(cfg, w, h, m, caller, ev).value, n) && Justified(w, ev, n)
  {
    HandleLeaves(cfg, w, h, m, caller, ev);
    HandleStaysHandling(cfg, w, h, m, caller, ev);
    hide HandleStep, MayDrop;
    n := if HandleStep(cfg, w, h, m, caller, ev).value.pc.HandleExit? then 1 else 0;
  }

  lemma ReceivedShifts(cfg: Config, w: Worker, m: Msg, cancelled: bool) returns (n: nat)
    requires Normalized(cfg) && WorkerOk(cfg, w) && w.pc == Received(m)
    ensures Shifts(w, ReceivedStep(cfg, w, m, cancelled), n) && Justified(w, CtxCheck(cancelled), n)
  {
    n := if cancelled then |w.batch| + 1 else 0;
  }

  lemma BulkShifts(cfg: Config, w: Worker, ev: Event) returns (n: nat)
    requires Normalized(cfg) && WorkerOk(cfg, w) && InBulk(w.pc) && BulkStep(cfg, w, ev).Some?
    ensures !ev.Receive?
    ensures Shifts(w, BulkStep(cfg, w, ev).value, n) && Justified(w, ev, n)
  {
    n := if BulkStep(cfg, w, ev).value.pc.FlushExit? then |w.batch| else 0;
  }

  lemma FallbackShifts(cfg: Config, w: Worker, ev: Event)
    requires Normalized(cfg) && WorkerOk(cfg, w) && w.pc.FallbackLoop? && FrameStep(cfg, w, ev).Some?
    ensures !ev.Receive?
    ensures Shifts(w, FrameStep(cfg, w, ev).value, 0) && Justified(w, ev, 0)
  {
  }

  lemma FrameShifts(cfg: Config, w: Worker, ev: Event) returns (n: nat)
    requires Normalized(cfg) && WorkerOk(cfg, w) && !w.pc.FallbackLoop? && FrameStep(cfg, w, ev).Some?
    ensures !ev.Receive?
    ensures Shifts(w, FrameStep(cfg, w, ev).value, n) && Justified(w, ev, n)
  {
    n := if w.pc.RejectRecheck? && ev.cancelled then 1 else 0;
  }

  /**
   * How a step moves the unfinished messages: a receive appends one; every other step drops a prefix. A non-empty
   * prefix is dropped only by a successful commit of exactly that prefix, or by a step that leaves the worker
   * having given up: on a cancelled context, on an unconfigured dead-letter writer, or on a closed channel.
   */
  lemma StepMovesUnfinished(cfg: Config, w: Worker, ev: Event) returns (n: nat)
    requires Normalized(cfg) && WorkerOk(cfg, w) && Step(cfg, w, ev).Some?
    ensures Moves(w, ev, Step(cfg, w, ev).value, n)
  {
    hide HandleStep, BulkStep, FrameStep, ReceivedStep, Shifts, WorkerOk, Unfinished, Justified;
    if w.pc.Select? {
      n := SelectMoves(cfg, w, ev);
    } else {
      if w.pc.Received? {
        n := ReceivedShifts(cfg, w, w.pc.m, ev.cancelled);
      } else if w.pc.Handle? {
        n := HandleShifts(cfg, w, w.pc.h, w.pc.m, w.pc.caller, ev);
      } else if InBulk(w.pc) {
        n := BulkShifts(cfg, w, ev);
      } else if w.pc.FallbackLoop? {
        n := 0;
        FallbackShifts(cfg, w, ev);
      } else {
        n := FrameShifts(cfg, w, ev);
      }
      ShiftsUnfinished(w, Step(cfg, w, ev).value, n);
    }
  }

  lemma SelectMoves(cfg: Config, w: Worker, ev: Event) returns (n: nat)
    requires Normalized(cfg) && WorkerOk(cfg, w) && w.pc.Select? && SelectStep(cfg, w, ev).Some?
    ensures Moves(w, ev, SelectStep(cfg, w, ev).value, n)
  {
    n := if ev.ReceiveClosed? then |w.batch| else 0;
    assert w.batch[0..] == w.batch && w.batch[|w.batch|..] == [];
  }
}
