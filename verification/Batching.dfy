/**
 * Batching refines one-at-a-time. When failures are clean, the batched pipeline leaves exactly what handling the
 * messages of each partition one by one would leave, each by the last answer its transaction got.
 */
module Batching {
  import opened Base
  import opened Errors
  import Domain
  import opened Messages
  import Store
  import opened Worker
  import opened World
  import opened Pipeline
  import opened Protocol
  import opened NoLoss
  import Commits

  // ---------------------------------------------------------------------------------------------------------
  // The reference: one message after the other
  // ---------------------------------------------------------------------------------------------------------

  /** A message, and the last answer the service gave to its transaction: None is success. */
  datatype Answered = Answered(m: Msg, answer: Option<Error>)

  /** The error handleMessage ends with when the last answer it gets, or the last it waits for, is e. */
  function Terminal(cfg: Config, e: Error): Error {
    if Retryable(e) && cfg.maxProcessRetries >= 0 then ProcessFailed(cfg.maxProcessRetries + 1, e) else NonRetryable(e)
  }

  /** Why a message is dead-lettered, if it is. */
  function Refusal(cfg: Config, m: Msg, answer: Option<Error>): Option<Error> {
    match cfg.parse(m.payload)
    case Err(e) => Some(NonRetryable(e))
    case Ok(t) =>
      match answer
      case None => None
      case Some(e) => Some(Terminal(cfg, e))
  }

  /** One message is stored or dead-lettered. */
  function HandleOne(cfg: Config, world: World, x: Answered): World {
    match Refusal(cfg, x.m, x.answer)
    case None => world.(table := Store.SaveOne(world.table, TxOf(cfg, x.m)))
    case Some(e) => world.(dlq := world.dlq + [Letter(x.m, e)])
  }

  function HandleEach(cfg: Config, world: World, xs: seq<Answered>): World {
    if xs == [] then world else HandleOne(cfg, HandleEach(cfg, world, xs[..|xs| - 1]), xs[|xs| - 1])
  }

  // ---------------------------------------------------------------------------------------------------------
  // The environment
  // ---------------------------------------------------------------------------------------------------------

  /** No cancellation, and failures without effect; the services answer as they like, and differently each time. */
  predicate CalmEvent(ev: Event) {
    match ev
    case CtxCheck(cancelled) => !cancelled
    case ReceiveClosed => false
    case BulkService(_, r) => r.Refused? ==> !r.applied
    case Service(_, r) => r.Refused? ==> !r.applied
    case WriteDlq(_, _, r) => r == Written || r == WriteFailed(false)
    case Commit(_, r) => r == Done || r == Failed(false)
    case _ => true
  }

  predicate CalmAction(a: Action) {
    match a
    case Work(_, ev) => CalmEvent(ev)
    case CancelApp => false
    case EndDrain => false
    case Restart => false
    case _ => true
  }

  predicate CalmRun(run: seq<Action>) {
    forall i :: 0 <= i < |run| ==> CalmAction(run[i])
  }

  // ---------------------------------------------------------------------------------------------------------
  // One step of a worker
  // ---------------------------------------------------------------------------------------------------------

  /** An answer of the service to a single transaction. */
  datatype Reply = Reply(tx: Domain.Transaction, error: Option<Error>)

  /** The last reply to this worker. */
  function Told(run: seq<Action>, p: nat): Option<Reply> {
    if run == [] then None
    else
      var last := run[|run| - 1];
      var before := Told(run[..|run| - 1], p);
      if last.Work? && last.p == p then Tells(before, last.ev) else before
  }

  function Tells(told: Option<Reply>, ev: Event): Option<Reply> {
    if !ev.Service? then told
    else Some(Reply(ev.tx, if ev.result.Stored? then None else Some(ev.result.error)))
  }

  /** The error the reply gives for a transaction. */
  function ErrorFor(told: Option<Reply>, tx: Domain.Transaction): Option<Error> {
    if told.Some? && told.value.tx == tx then told.value.error else None
  }

  /** The worker goes on, and what it has in hand agrees with the answer it got. */
  predicate KnowsAnswer(cfg: Config, w: Worker, told: Option<Reply>) {
    match w.pc
    case Handle(ServiceFailed(_, e), m, _) => ErrorFor(told, TxOf(cfg, m)) == Some(e)
    case Handle(DlqCall(e), m, _) => Refusal(cfg, m, ErrorFor(told, TxOf(cfg, m))) == Some(e)
    case Handle(DlqFailed(e), m, _) => Refusal(cfg, m, ErrorFor(told, TxOf(cfg, m))) == Some(e)
    case Stopped => false
    case _ => true
  }

  lemma HandleKnowsAnswer(cfg: Config, w: Worker, h: HandlePc, m: Msg, caller: Caller, ev: Event, told: Option<Reply>)
    requires Normalized(cfg) && HandleOk(cfg, h, m) && w.pc == Handle(h, m, caller) && KnowsAnswer(cfg, w, told)
    requires HandleStep(cfg, w, h, m, caller, ev).Some? && CalmEvent(ev)
    ensures KnowsAnswer(cfg, HandleStep(cfg, w, h, m, caller, ev).value, Tells(told, ev))
  {
    if h.ServiceFailed? {
      TerminalIsShutdownIff(h.error, h.attempt + 1);
    }
    hide IsContextError, Retryable, Mixed, Contains;
  }

  lemma StepKnowsAnswer(cfg: Config, w: Worker, ev: Event, told: Option<Reply>)
    requires Normalized(cfg) && WorkerOk(cfg, w) && KnowsAnswer(cfg, w, told)
    requires Step(cfg, w, ev).Some? && CalmEvent(ev)
    ensures KnowsAnswer(cfg, Step(cfg, w, ev).value, Tells(told, ev))
  {
    if w.pc.Handle? {
      HandleKnowsAnswer(cfg, w, w.pc.h, w.pc.m, w.pc.caller, ev, told);
      hide HandleStep;
    } else {
      hide HandleStep, BulkStep, TxsOf;
    }
  }

  /** The messages that a step settles, that is, brings to where they are to be committed. */
  function Settles(w: Worker, ev: Event): seq<Msg> {
    match w.pc
    case BulkCall(_) => if ev.BulkService? && ev.bulkResult.Stored? then w.batch else []
    case Handle(ServiceCall(_), m, _) => if ev.Service? && ev.result.Stored? then [m] else []
    case Handle(DlqCall(_), m, _) => if ev.WriteDlq? && ev.dlqResult.Written? then [m] else []
    case _ => []
  }

  /** They were accepted, in bulk or alone, or dead-lettered for the answer the worker was told. */
  function Settling(cfg: Config, w: Worker, ev: Event, told: Option<Reply>): (xs: seq<Answered>)
    ensures |xs| == |Settles(w, ev)| && forall i :: 0 <= i < |xs| ==> xs[i].m == Settles(w, ev)[i]
  {
    var ms := Settles(w, ev);
    seq(|ms|, i requires 0 <= i < |ms| =>
      Answered(ms[i], if ev.WriteDlq? && Valid(cfg, ms[i]) then ErrorFor(told, TxOf(cfg, ms[i])) else None))
  }

  lemma HandleSettles(cfg: Config, w: Worker, h: HandlePc, m: Msg, caller: Caller, ev: Event)
    requires Normalized(cfg) && HandleOk(cfg, h, m) && w.pc == Handle(h, m, caller)
    requires HandleStep(cfg, w, h, m, caller, ev).Some? && CalmEvent(ev)
    ensures var w' := HandleStep(cfg, w, h, m, caller, ev).value;
            && Committing(w') == (if ev.Commit? && ev.commitResult.Done? then [] else Committing(w) + Settles(w, ev))
            && (w'.pc.HandleExit? ==> ev.Commit? && ev.commitResult.Done?)
  {
    if h.ServiceFailed? {
      hide Step, HandleStep, Retryable, IsContextError, Contains;
      assert HandleStep(cfg, w, h, m, caller, ev) == Step(cfg, w, ev) by { HandleIsStep(cfg, w, ev); }
      assert ev == CtxCheck(false) by { FailureIsChecked(cfg, w, h, m, caller, ev); }
      AtServiceFailure(cfg, w, m, caller, h.attempt, h.error);
      TerminalIsShutdownIff(h.error, h.attempt + 1);
    }
  }

  lemma HandleIsStep(cfg: Config, w: Worker, ev: Event)
    requires w.pc.Handle?
    ensures Step(cfg, w, ev) == HandleStep(cfg, w, w.pc.h, w.pc.m, w.pc.caller, ev)
  {
    hide HandleStep;
  }

  lemma FailureIsChecked(cfg: Config, w: Worker, h: HandlePc, m: Msg, caller: Caller, ev: Event)
    requires h.ServiceFailed? && HandleStep(cfg, w, h, m, caller, ev).Some? && CalmEvent(ev)
    ensures ev == CtxCheck(false)
  {
    hide Retryable, AfterProcessError;
  }

  /** Without cancellation a step adds what it settles to what is to be committed, and only a commit takes it away. */
  lemma StepSettles(cfg: Config, w: Worker, ev: Event)
    requires Normalized(cfg) && WorkerOk(cfg, w) && Step(cfg, w, ev).Some? && CalmEvent(ev)
    ensures Committing(Step(cfg, w, ev).value)
            == (if ev.Commit? && ev.commitResult.Done? then [] else Committing(w) + Settles(w, ev))
  {
    if w.pc.Handle? {
      HandleSettles(cfg, w, w.pc.h, w.pc.m, w.pc.caller, ev);
      hide HandleStep;
    } else if InBulk(w.pc) {
      BulkSettles(cfg, w, ev);
      hide BulkStep, Committing, Settles;
    } else {
      FrameSettles(cfg, w, ev);
      hide Step, Committing, Settles;
    }
  }

  lemma BulkSettles(cfg: Config, w: Worker, ev: Event)
    requires WorkerOk(cfg, w) && InBulk(w.pc) && BulkStep(cfg, w, ev).Some? && CalmEvent(ev)
    ensures Committing(BulkStep(cfg, w, ev).value)
            == (if ev.Commit? && ev.commitResult.Done? then [] else Committing(w) + Settles(w, ev))
  {
    hide TxsOf;
  }

  lemma FrameSettles(cfg: Config, w: Worker, ev: Event)
    requires Step(cfg, w, ev).Some? && !w.pc.Handle? && !InBulk(w.pc)
    ensures !ev.Commit? && Committing(Step(cfg, w, ev).value) == Committing(w) == Settles(w, ev) == []
  {
    hide HandleStep, BulkStep;
  }

  predicate AllAccepted(cfg: Config, xs: seq<Answered>) {
    forall i :: 0 <= i < |xs| ==> Valid(cfg, xs[i].m) && xs[i].answer.None?
  }

  /** Messages that are all accepted are stored in order, as by one bulk insert. */
  lemma {:induction false} AcceptedAreSaved(cfg: Config, world: World, xs: seq<Answered>, ms: seq<Msg>)
    requires AllAccepted(cfg, xs) && |xs| == |ms| && forall i :: 0 <= i < |xs| ==> xs[i].m == ms[i]
    ensures HandleEach(cfg, world, xs) == world.(table := Store.SaveAll(world.table, TxsOf(cfg, ms)))
  {
    if xs != [] {
      var last := |ms| - 1;
      var front := ms[..last];
      assert TxsOf(cfg, ms) == TxsOf(cfg, front) + [TxOf(cfg, ms[last])];
      AcceptedAreSaved(cfg, world, xs[..last], front);
      Store.SaveAllAppend(world.table, TxsOf(cfg, front), [TxOf(cfg, ms[last])]);
      Store.SaveAllSingle(Store.SaveAll(world.table, TxsOf(cfg, front)), TxOf(cfg, ms[last]));
    }
  }

  /** A step's effect on the world is that of handling what it settles, one message at a time. */
  lemma SettleEffect(cfg: Config, world: World, w: Worker, ev: Event, told: Option<Reply>)
    requires Normalized(cfg) && WorkerOk(cfg, w) && KnowsAnswer(cfg, w, told)
    requires Step(cfg, w, ev).Some? && CalmEvent(ev)
    ensures Effect(world, ev) == HandleEach(cfg, world, Settling(cfg, w, ev, told))
  {
    if w.pc.Handle? {
      HandleSettleEffect(cfg, world, w, w.pc.h, w.pc.m, w.pc.caller, ev, told);
      hide HandleStep;
    } else if w.pc.BulkCall? {
      BulkSettleEffect(cfg, world, w, ev, told);
      hide Step, Effect, HandleEach;
    } else {
      SilentSteps(cfg, world, w, ev);
      hide Step, Effect;
    }
  }

  lemma BulkSettleEffect(cfg: Config, world: World, w: Worker, ev: Event, told: Option<Reply>)
    requires WorkerOk(cfg, w) && w.pc.BulkCall? && BulkStep(cfg, w, ev).Some? && CalmEvent(ev)
    ensures Effect(world, ev) == HandleEach(cfg, world, Settling(cfg, w, ev, told))
  {
    if ev.bulkResult.Stored? {
      var xs := Settling(cfg, w, ev, told);
      AcceptedAreSaved(cfg, world, xs, w.batch);
      hide HandleEach;
    }
  }

  lemma SilentSteps(cfg: Config, world: World, w: Worker, ev: Event)
    requires Step(cfg, w, ev).Some? && !w.pc.Handle? && !w.pc.BulkCall?
    ensures Effect(world, ev) == world
  {
    hide HandleStep;
  }

  lemma HandleSettleEffect(cfg: Config, world: World, w: Worker, h: HandlePc, m: Msg, caller: Caller, ev: Event,
      told: Option<Reply>)
    requires Normalized(cfg) && HandleOk(cfg, h, m) && w.pc == Handle(h, m, caller) && KnowsAnswer(cfg, w, told)
    requires HandleStep(cfg, w, h, m, caller, ev).Some? && CalmEvent(ev)
    ensures Effect(world, ev) == HandleEach(cfg, world, Settling(cfg, w, ev, told))
  {
    var xs := Settling(cfg, w, ev, told);
    if Settles(w, ev) == [m] {
      var x := Answered(m, if ev.WriteDlq? && Valid(cfg, m) then ErrorFor(told, TxOf(cfg, m)) else None);
      assert xs == [x];
      assert xs[..0] == [];
      hide HandleStep;
    }
  }

  // ---------------------------------------------------------------------------------------------------------
  // Runs
  // ---------------------------------------------------------------------------------------------------------

  /** The messages a run settles, in the order in which it settles them, with the answers they got. */
  function Outcomes(env: Env, run: seq<Action>): seq<Answered> {
    if run == [] then []
    else
      var before := run[..|run| - 1];
      Outcomes(env, before) + SettledLast(env, before, run[|run| - 1])
  }

  function SettledLast(env: Env, before: seq<Action>, a: Action): seq<Answered> {
    if Reach(env, before).Some? then SettledBy(env.cfg, Reach(env, before).value, a, before) else []
  }

  /** A run is a shorter run and one more action. */
  lemma LastAction(env: Env, run: seq<Action>) returns (before: seq<Action>, s: State, a: Action)
    requires run != [] && Reach(env, run).Some?
    ensures run == before + [a] && before == run[..|run| - 1] && |before| < |run|
    ensures Reach(env, before) == Some(s) && Reach(env, run) == Next(env, s, a)
    ensures Outcomes(env, run) == Outcomes(env, before) + SettledBy(env.cfg, s, a, before)
  {
    hide Next, SettledBy;
    before, a := run[..|run| - 1], run[|run| - 1];
    s := Reach(env, before).value;
  }

  function SettledBy(cfg: Config, s: State, a: Action, before: seq<Action>): seq<Answered> {
    if a.Work? && a.p < |s.parts| && s.parts[a.p].worker.Some? then
      Settling(cfg, s.parts[a.p].worker.value, a.ev, Told(before, a.p))
    else []
  }

  function MessagesOf(xs: seq<Answered>): (ms: seq<Msg>)
    ensures |ms| == |xs| && forall i :: 0 <= i < |xs| ==> ms[i] == xs[i].m
  {
    seq(|xs|, i requires 0 <= i < |xs| => xs[i].m)
  }

  function Order(env: Env, run: seq<Action>): seq<Msg> {
    MessagesOf(Outcomes(env, run))
  }

  function OfPartition(ms: seq<Msg>, p: nat): seq<Msg> {
    if ms == [] then []
    else
      OfPartition(ms[..|ms| - 1], p) + (if ms[|ms| - 1].partition == p then [ms[|ms| - 1]] else [])
  }

  /** Everything below this offset is settled. */
  function SettledOffset(part: Part): int {
    Frontier(part) + (if part.worker.Some? then |Committing(part.worker.value)| else 0)
  }

  lemma {:induction false} OfPartitionAppend(a: seq<Msg>, b: seq<Msg>, p: nat)
    ensures OfPartition(a + b, p) == OfPartition(a, p) + OfPartition(b, p)
  {
    if b == [] {
      assert a + b == a;
    } else {
      assert (a + b)[..|a + b| - 1] == a + b[..|b| - 1];
      OfPartitionAppend(a, b[..|b| - 1], p);
    }
  }

  lemma {:induction false} OfOnePartition(ms: seq<Msg>, p: nat, q: nat)
    requires forall i :: 0 <= i < |ms| ==> ms[i].partition == p
    ensures OfPartition(ms, q) == if p == q then ms else []
  {
    if ms != [] {
      var front := ms[..|ms| - 1];
      assert forall i :: 0 <= i < |front| ==> front[i] == ms[i];
      OfOnePartition(front, p, q);
      assert ms == front + [ms[|ms| - 1]];
    }
  }

  lemma {:induction false} HandleEachAppend(cfg: Config, world: World, a: seq<Answered>, b: seq<Answered>)
    ensures HandleEach(cfg, world, a + b) == HandleEach(cfg, HandleEach(cfg, world, a), b)
  {
    if b == [] {
      assert a + b == a;
    } else {
      hide HandleOne;
      assert (a + b)[..|a + b| - 1] == a + b[..|b| - 1];
      HandleEachAppend(cfg, world, a, b[..|b| - 1]);
    }
  }

  ghost predicate SettledPart(env: Env, p: nat, part: Part, order: seq<Msg>, told: Option<Reply>)
    requires p < |env.logs|
  {
    && 0 <= SettledOffset(part) <= |env.logs[p]|
    && OfPartition(order, p) == Slice(env, p, 0, SettledOffset(part))
    && (part.worker.Some? ==> KnowsAnswer(env.cfg, part.worker.value, told))
  }

  /** The state of a calm run: the world is that of the outcomes, and their order respects each partition. */
  ghost predicate Refines(env: Env, s: State, xs: seq<Answered>, run: seq<Action>) {
    && |s.parts| == |env.logs|
    && !Cancelled(s)
    && s.world == HandleEach(env.cfg, World([], []), xs)
    && forall p :: 0 <= p < |s.parts| ==> SettledPart(env, p, s.parts[p], MessagesOf(xs), Told(run, p))
  }

  /** The settled part of a partition grows by as much as the step settles. */
  lemma SettledAdvances(env: Env, s: State, p: nat, ev: Event)
    requires EnvOk(env) && Sound(env, s) && WorkNext(env, s, p, ev).Some? && CalmEvent(ev)
    ensures var s' := WorkNext(env, s, p, ev).value;
            p < |s'.parts| == |s.parts| == |env.logs|
            && SettledOffset(s'.parts[p]) == SettledOffset(s.parts[p]) + |Settles(s.parts[p].worker.value, ev)|
  {
    hide Step, WorkNext, WorkerOk, Unfinished, Frontier, Committing, Settles, Justified, FlowOk, HeldOk, ChannelsOk,
         InFlightOk;
    WorkShape(env, s, p, ev);
    var w := s.parts[p].worker.value;
    SoundWorker(env, s, p);
    var n := Commits.Progress(env, s, p, ev);
    CalmDrops(w, ev, n);
    StepSettles(env.cfg, w, ev);
    SettlesFromNothing(w, ev);
  }

  /** Without cancellation only a successful commit drops messages. */
  lemma CalmDrops(w: Worker, ev: Event, n: nat)
    requires CalmEvent(ev) && Justified(w, ev, n)
    ensures n == (if ev.Commit? && ev.commitResult.Done? then |Committing(w)| else 0)
  {
    hide Committing;
  }

  /** What is to be committed is the stretch of the log up to the settled offset. */
  lemma CommittingSlice(env: Env, p: nat, part: Part)
    requires EnvOk(env) && p < |env.logs| && FlowOk(env, p, part) && part.worker.Some?
    ensures 0 <= Frontier(part) <= SettledOffset(part) <= |env.logs[p]|
    ensures Committing(part.worker.value) == Slice(env, p, Frontier(part), SettledOffset(part))
  {
    CommittingIsFlowPrefix(env, p, part);
    hide FlowOk, Frontier, Committing, Slice;
    Commits.SliceOf(env, p, Frontier(part), Committing(part.worker.value));
  }

  /** What a step settles is the next stretch of the partition's log. */
  lemma SettledGrows(env: Env, s: State, p: nat, ev: Event)
    requires EnvOk(env) && Sound(env, s) && WorkNext(env, s, p, ev).Some? && CalmEvent(ev)
    ensures var s' := WorkNext(env, s, p, ev).value;
            var ms := Settles(s.parts[p].worker.value, ev);
            && p < |s'.parts| == |s.parts| == |env.logs| && 0 <= SettledOffset(s.parts[p])
            && SettledOffset(s'.parts[p]) == SettledOffset(s.parts[p]) + |ms| <= |env.logs[p]|
            && ms == Slice(env, p, SettledOffset(s.parts[p]), SettledOffset(s'.parts[p]))
  {
    var s' := WorkNext(env, s, p, ev).value;
    var w := s.parts[p].worker.value;
    SettledAdvances(env, s, p, ev);
    WorkKeepsOrder(env, s, p, ev);
    assert FlowOk(env, p, s.parts[p]) && FlowOk(env, p, s'.parts[p]);
    CommittingSlice(env, p, s.parts[p]);
    CommittingSlice(env, p, s'.parts[p]);
    StepSettles(env.cfg, w, ev);
    SettlesFromNothing(w, ev);
    hide Step, WorkerOk, Effect, CommittedAfter, Frontier, Committing, Slice, FlowOk, HeldOk, Settles, ChannelsOk,
         Flow, SettledOffset;
    NextStretch(env, p, s.parts[p], s'.parts[p], Settles(w, ev));
  }

  lemma NextStretch(env: Env, p: nat, part: Part, part': Part, ms: seq<Msg>)
    requires p < |env.logs| && part'.worker.Some? && 0 <= SettledOffset(part) <= SettledOffset(part') <= |env.logs[p]|
    requires SettledOffset(part') == SettledOffset(part) + |ms| && 0 <= Frontier(part') <= SettledOffset(part')
    requires Committing(part'.worker.value) == Slice(env, p, Frontier(part'), SettledOffset(part'))
    requires ms != [] ==> Committing(part'.worker.value) == ms
    ensures ms == Slice(env, p, SettledOffset(part), SettledOffset(part'))
  {
    hide Frontier, Committing;
  }

  lemma SettlesFromNothing(w: Worker, ev: Event)
    ensures Settles(w, ev) != [] ==> Committing(w) == [] && !ev.Commit?
  {
  }

  lemma JoinSlices(env: Env, p: nat, a: nat, b: nat)
    requires p < |env.logs| && a <= b <= |env.logs[p]|
    ensures Slice(env, p, 0, a) + Slice(env, p, a, b) == Slice(env, p, 0, b)
    ensures forall i :: 0 <= i < b - a ==> Slice(env, p, a, b)[i].partition == p
  {
  }

  lemma WorkSettlesPart(env: Env, s: State, order: seq<Msg>, p: nat, ev: Event, told: Option<Reply>)
    requires EnvOk(env) && Sound(env, s) && WorkNext(env, s, p, ev).Some? && CalmEvent(ev)
    requires p < |env.logs| && SettledPart(env, p, s.parts[p], order, told)
    ensures var s' := WorkNext(env, s, p, ev).value;
            SettledPart(env, p, s'.parts[p], order + Settles(s.parts[p].worker.value, ev), Tells(told, ev))
  {
    var s' := WorkNext(env, s, p, ev).value;
    var w := s.parts[p].worker.value;
    var ms := Settles(w, ev);
    assert FlowOk(env, p, s.parts[p]);
    SettledGrows(env, s, p, ev);
    StepKnowsAnswer(env.cfg, w, ev, told);
    hide Step, WorkerOk, Effect, CommittedAfter, SettledOffset, Slice, Flow, HeldOk, Settles, ChannelsOk, KnowsAnswer,
         OfPartition;
    JoinSlices(env, p, SettledOffset(s.parts[p]), SettledOffset(s'.parts[p]));
    OfPartitionAppend(order, ms, p);
    OfOnePartition(ms, p, p);
  }

  lemma OthersStaySettled(env: Env, q: nat, part: Part, order: seq<Msg>, told: Option<Reply>, ms: seq<Msg>, p: nat)
    requires q < |env.logs| && p != q && SettledPart(env, q, part, order, told)
    requires forall i :: 0 <= i < |ms| ==> ms[i].partition == p
    ensures SettledPart(env, q, part, order + ms, told)
  {
    hide SettledOffset, Slice, KnowsAnswer;
    OfPartitionAppend(order, ms, q);
    OfOnePartition(ms, p, q);
  }

  lemma WorkWorld(env: Env, s: State, xs: seq<Answered>, p: nat, ev: Event, told: Option<Reply>)
    requires EnvOk(env) && Sound(env, s) && WorkNext(env, s, p, ev).Some? && CalmEvent(ev)
    requires p < |s.parts| && s.parts[p].worker.Some? && KnowsAnswer(env.cfg, s.parts[p].worker.value, told)
    requires s.world == HandleEach(env.cfg, World([], []), xs)
    ensures WorkNext(env, s, p, ev).value.world
            == HandleEach(env.cfg, World([], []), xs + Settling(env.cfg, s.parts[p].worker.value, ev, told))
    ensures Cancelled(WorkNext(env, s, p, ev).value) == Cancelled(s)
  {
    hide Step, Effect, WorkerOk, CommittedAfter, Settling, HandleEach, KnowsAnswer, Sound;
    var w := s.parts[p].worker.value;
    SoundWorker(env, s, p);
    hide OrderOk;
    SettleEffect(env.cfg, s.world, w, ev, told);
    HandleEachAppend(env.cfg, World([], []), xs, Settling(env.cfg, w, ev, told));
  }

  lemma MessagesAppend(xs: seq<Answered>, ys: seq<Answered>, ms: seq<Msg>)
    requires |ys| == |ms| && forall i :: 0 <= i < |ys| ==> ys[i].m == ms[i]
    ensures MessagesOf(xs + ys) == MessagesOf(xs) + ms
  {
  }

  lemma ToldAfter(run: seq<Action>, a: Action, p: nat)
    ensures Told(run + [a], p) == if a.Work? && a.p == p then Tells(Told(run, p), a.ev) else Told(run, p)
  {
    assert (run + [a])[..|run|] == run;
  }

  lemma WorkRefines(env: Env, s: State, xs: seq<Answered>, run: seq<Action>, p: nat, ev: Event)
    requires EnvOk(env) && Sound(env, s) && Refines(env, s, xs, run)
    requires WorkNext(env, s, p, ev).Some? && CalmEvent(ev)
    ensures p < |s.parts| && s.parts[p].worker.Some?
    ensures Refines(env, WorkNext(env, s, p, ev).value,
                    xs + Settling(env.cfg, s.parts[p].worker.value, ev, Told(run, p)), run + [Work(p, ev)])
  {
    var s' := WorkNext(env, s, p, ev).value;
    WorkPartition(env, s, p, ev);
    assert SettledPart(env, p, s.parts[p], MessagesOf(xs), Told(run, p));
    var ms := Settles(s.parts[p].worker.value, ev);
    var ys := Settling(env.cfg, s.parts[p].worker.value, ev, Told(run, p));
    WorkWorld(env, s, xs, p, ev, Told(run, p));
    WorkSettlesPart(env, s, MessagesOf(xs), p, ev, Told(run, p));
    MessagesAppend(xs, ys, ms);
    ToldAfter(run, Work(p, ev), p);
    SettledGrows(env, s, p, ev);
    JoinSlices(env, p, SettledOffset(s.parts[p]), SettledOffset(s'.parts[p]));
    hide Step, Effect, CommittedAfter, SettledPart, Sound, Settles, Settling, SettledOffset, Slice, HandleEach,
         MessagesOf, Told, Tells;
    forall q | 0 <= q < |s'.parts| && q != p
      ensures SettledPart(env, q, s'.parts[q], MessagesOf(xs + ys), Told(run + [Work(p, ev)], q))
    {
      ToldAfter(run, Work(p, ev), q);
      assert SettledPart(env, q, s.parts[q], MessagesOf(xs), Told(run, q));
      OthersStaySettled(env, q, s.parts[q], MessagesOf(xs), Told(run, q), ms, p);
    }
  }

  lemma QuietRefines(env: Env, s: State, xs: seq<Answered>, run: seq<Action>, a: Action)
    requires EnvOk(env) && Sound(env, s) && Refines(env, s, xs, run)
    requires Next(env, s, a).Some? && CalmAction(a) && !a.Work?
    ensures Refines(env, Next(env, s, a).value, xs, run + [a])
  {
    var s' := Next(env, s, a).value;
    LoopSameProgress(env, s, a);
    assert Cancelled(s') == Cancelled(s) by { hide WorkNext, Sound, SameProgress; }
    hide Next, Sound, SameProgress, SettledPart, Told;
    forall q | 0 <= q < |s'.parts|
      ensures SettledPart(env, q, s'.parts[q], MessagesOf(xs), Told(run + [a], q))
    {
      ToldAfter(run, a, q);
      assert SettledPart(env, q, s.parts[q], MessagesOf(xs), Told(run, q)) && SameProgress(s.parts[q], s'.parts[q]);
      SameProgressStaysSettled(env, q, s.parts[q], s'.parts[q], MessagesOf(xs), Told(run, q));
    }
  }

  lemma SameProgressStaysSettled(env: Env, p: nat, part: Part, part': Part, order: seq<Msg>, told: Option<Reply>)
    requires p < |env.logs| && SameProgress(part, part') && SettledPart(env, p, part, order, told)
    ensures SettledPart(env, p, part', order, told)
  {
    assert Committing(FreshWorker) == [] && KnowsAnswer(env.cfg, FreshWorker, told);
    hide Frontier, Committing, KnowsAnswer, Slice, OfPartition;
  }

  lemma InitRefines(env: Env)
    ensures Refines(env, Init(env), [], [])
  {
    forall p | 0 <= p < |env.logs|
      ensures SettledPart(env, p, FreshPart(0), [], None)
    {
      assert SettledOffset(FreshPart(0)) == 0;
    }
  }

  lemma {:induction false} CalmRunRefines(env: Env, run: seq<Action>)
    requires EnvOk(env) && Reach(env, run).Some? && CalmRun(run)
    ensures Refines(env, Reach(env, run).value, Outcomes(env, run), run)
  {
    if run == [] {
      InitRefines(env);
    } else {
      hide Sound, Refines, Next, Reach, Outcomes, SettledBy;
      var before, s, a := LastAction(env, run);
      CalmRunRefines(env, before);
      EveryRun(env, before);
      NextRefines(env, s, Outcomes(env, before), before, a);
    }
  }

  lemma NextRefines(env: Env, s: State, xs: seq<Answered>, run: seq<Action>, a: Action)
    requires EnvOk(env) && Sound(env, s) && Refines(env, s, xs, run)
    requires Next(env, s, a).Some? && CalmAction(a)
    ensures Refines(env, Next(env, s, a).value, xs + SettledBy(env.cfg, s, a, run), run + [a])
  {
    hide Sound, Refines, WorkNext, Settling;
    if a.Work? {
      WorkRefines(env, s, xs, run, a.p, a.ev);
    } else {
      QuietRefines(env, s, xs, run, a);
      assert xs + [] == xs;
    }
  }

  /** A calm run fails cleanly. */
  lemma CalmIsClean(run: seq<Action>)
    requires CalmRun(run)
    ensures Commits.CleanCommits(run)
  {
    forall i | 0 <= i < |run| && run[i].Work?
      ensures Commits.CleanCommit(run[i].ev)
    {
      assert CalmAction(run[i]);
    }
  }

  /** What is committed of a partition is what is finished; at rest it is what is settled. */
  predicate InStep(env: Env, p: nat, part: Part, order: seq<Msg>)
    requires p < |env.logs|
  {
    && 0 <= part.committed <= SettledOffset(part) <= |env.logs[p]|
    && OfPartition(order, p) == Slice(env, p, 0, SettledOffset(part))
    && (part.worker.Some? && part.worker.value.pc.Select? ==> part.committed == SettledOffset(part))
  }

  /**
   * Batching refines one-at-a-time, whatever the services answer: for every log, batch size, tick schedule and
   * interleaving, and answers that change from one attempt to the next, the table and the dead-letter topic, with
   * their order and reasons, are those of handling some sequence of messages one by one, each by the last answer it
   * got; that sequence contains exactly the settled messages of each partition, in order; and what is committed is
   * what is finished, so at rest it is what is settled.
   */
  lemma {:induction false} BatchingIsSequential(env: Env, run: seq<Action>)
    requires EnvOk(env) && Reach(env, run).Some? && CalmRun(run)
    ensures var s := Reach(env, run).value;
            && s.world == HandleEach(env.cfg, World([], []), Outcomes(env, run))
            && |s.parts| == |env.logs|
            && forall p :: 0 <= p < |s.parts| ==> InStep(env, p, s.parts[p], Order(env, run))
  {
    hide Reach, Outcomes, HandleEach, OfPartition, Slice, Frontier, MessagesOf, CalmRun, Told;
    CalmRunRefines(env, run);
    CalmIsClean(run);
    Commits.CleanRunTight(env, run);
    var s := Reach(env, run).value;
    forall p | 0 <= p < |s.parts|
      ensures InStep(env, p, s.parts[p], Order(env, run))
    {
      assert SettledPart(env, p, s.parts[p], Order(env, run), Told(run, p));
      assert Commits.TightPart(env.cfg, Cancelled(s), s.parts[p]);
    }
  }

  // ---------------------------------------------------------------------------------------------------------
  // When the answer depends on the transaction alone
  // ---------------------------------------------------------------------------------------------------------

  /** What the service says to a transaction, every time: None is success. */
  type Fate = Domain.Transaction -> Option<Error>

  /** A bulk insert succeeds when all its transactions are accepted, and otherwise fails with the error of one. */
  predicate FatedBulk(fate: Fate, txs: seq<Domain.Transaction>, r: ServiceResult) {
    match r
    case Stored => forall i :: 0 <= i < |txs| ==> fate(txs[i]).None?
    case Refused(e, _) => exists i :: 0 <= i < |txs| && fate(txs[i]) == Some(e)
  }

  predicate FatedOne(fate: Fate, tx: Domain.Transaction, r: ServiceResult) {
    match r
    case Stored => fate(tx).None?
    case Refused(e, _) => fate(tx) == Some(e)
  }

  predicate FatedEvent(fate: Fate, ev: Event) {
    match ev
    case BulkService(txs, r) => FatedBulk(fate, txs, r)
    case Service(tx, r) => FatedOne(fate, tx, r)
    case _ => true
  }

  predicate FatedRun(fate: Fate, run: seq<Action>) {
    forall i :: 0 <= i < |run| && run[i].Work? ==> FatedEvent(fate, run[i].ev)
  }

  /** The message with the answer that is its fate; a rejected one gets none. */
  function Fated(cfg: Config, fate: Fate, m: Msg): Answered {
    Answered(m, if Valid(cfg, m) then fate(TxOf(cfg, m)) else None)
  }

  function FatedAll(cfg: Config, fate: Fate, ms: seq<Msg>): (xs: seq<Answered>)
    ensures |xs| == |ms| && forall i :: 0 <= i < |ms| ==> xs[i] == Fated(cfg, fate, ms[i])
  {
    seq(|ms|, i requires 0 <= i < |ms| => Fated(cfg, fate, ms[i]))
  }

  /** What the first n messages of partition p leave behind, handled one at a time. */
  function OneAtATime(env: Env, fate: Fate, p: nat, n: nat): World
    requires p < |env.logs| && n <= |env.logs[p]|
  {
    HandleEach(env.cfg, World([], []), FatedAll(env.cfg, fate, Slice(env, p, 0, n)))
  }

  /** What the worker was told is the fate of the message it has in hand. */
  predicate KnowsFate(cfg: Config, fate: Fate, w: Worker, told: Option<Reply>) {
    w.pc.Handle? && (w.pc.h.ServiceFailed? || w.pc.h.DlqCall? || w.pc.h.DlqFailed?) && Valid(cfg, w.pc.m) ==>
      ErrorFor(told, TxOf(cfg, w.pc.m)) == fate(TxOf(cfg, w.pc.m))
  }

  lemma HandleKnowsFate(cfg: Config, fate: Fate, w: Worker, h: HandlePc, m: Msg, caller: Caller, ev: Event,
      told: Option<Reply>)
    requires w.pc == Handle(h, m, caller) && KnowsFate(cfg, fate, w, told)
    requires HandleStep(cfg, w, h, m, caller, ev).Some? && FatedEvent(fate, ev)
    ensures KnowsFate(cfg, fate, HandleStep(cfg, w, h, m, caller, ev).value, Tells(told, ev))
  {
    hide FatedBulk;
  }

  lemma StepKnowsFate(cfg: Config, fate: Fate, w: Worker, ev: Event, told: Option<Reply>)
    requires KnowsFate(cfg, fate, w, told) && Step(cfg, w, ev).Some? && FatedEvent(fate, ev)
    ensures KnowsFate(cfg, fate, Step(cfg, w, ev).value, Tells(told, ev))
  {
    if w.pc.Handle? {
      HandleKnowsFate(cfg, fate, w, w.pc.h, w.pc.m, w.pc.caller, ev, told);
      hide HandleStep;
    } else {
      hide HandleStep, BulkStep, TxsOf, FatedBulk, FatedOne;
    }
  }

  /** What is settled has got its fate for an answer. */
  lemma SettledAsFated(cfg: Config, fate: Fate, w: Worker, ev: Event, told: Option<Reply>)
    requires WorkerOk(cfg, w) && KnowsFate(cfg, fate, w, told) && Step(cfg, w, ev).Some? && FatedEvent(fate, ev)
    ensures Settling(cfg, w, ev, told) == FatedAll(cfg, fate, Settles(w, ev))
  {
    var ms := Settles(w, ev);
    if w.pc.BulkCall? && ms != [] {
      forall i | 0 <= i < |ms| ensures fate(TxOf(cfg, ms[i])).None? {
        assert ev.txs[i] == TxOf(cfg, ms[i]);
      }
    }
  }

  ghost predicate AllKnowFate(env: Env, fate: Fate, s: State, run: seq<Action>) {
    forall p :: 0 <= p < |s.parts| && s.parts[p].worker.Some? ==>
                  KnowsFate(env.cfg, fate, s.parts[p].worker.value, Told(run, p))
  }

  lemma NextKnowsFate(env: Env, fate: Fate, s: State, run: seq<Action>, a: Action)
    requires EnvOk(env) && Sound(env, s) && AllKnowFate(env, fate, s, run) && Next(env, s, a).Some?
    requires CalmAction(a) && (a.Work? ==> FatedEvent(fate, a.ev))
    ensures AllKnowFate(env, fate, Next(env, s, a).value, run + [a])
  {
    var s' := Next(env, s, a).value;
    if a.Work? {
      WorkPartition(env, s, a.p, a.ev);
      hide Step, Effect, CommittedAfter, Sound, KnowsFate, Told, Tells;
      StepKnowsFate(env.cfg, fate, s.parts[a.p].worker.value, a.ev, Told(run, a.p));
    } else {
      LoopSameProgress(env, s, a);
      assert KnowsFate(env.cfg, fate, FreshWorker, None);
      hide Next, Sound, Told, Frontier;
    }
    forall p | 0 <= p < |s'.parts| && s'.parts[p].worker.Some?
      ensures KnowsFate(env.cfg, fate, s'.parts[p].worker.value, Told(run + [a], p))
    {
      ToldAfter(run, a, p);
      if !a.Work? {
        assert SameProgress(s.parts[p], s'.parts[p]);
      }
    }
  }

  lemma {:induction false} FatedOutcomes(env: Env, fate: Fate, run: seq<Action>)
    requires EnvOk(env) && Reach(env, run).Some? && CalmRun(run) && FatedRun(fate, run)
    ensures AllKnowFate(env, fate, Reach(env, run).value, run)
    ensures Outcomes(env, run) == FatedAll(env.cfg, fate, Order(env, run))
  {
    if run != [] {
      hide Sound, AllKnowFate, Next, Reach, Outcomes, SettledBy;
      var before, s, a := LastAction(env, run);
      FatedOutcomes(env, fate, before);
      EveryRun(env, before);
      NextKnowsFate(env, fate, s, before, a);
      FatedSettling(env, fate, s, before, a);
      FatedAppend(env.cfg, fate, Outcomes(env, before), SettledBy(env.cfg, s, a, before));
    }
  }

  lemma FatedAppend(cfg: Config, fate: Fate, xs: seq<Answered>, ys: seq<Answered>)
    requires xs == FatedAll(cfg, fate, MessagesOf(xs)) && ys == FatedAll(cfg, fate, MessagesOf(ys))
    ensures xs + ys == FatedAll(cfg, fate, MessagesOf(xs + ys))
  {
    hide Fated;
  }

  lemma FatedSettling(env: Env, fate: Fate, s: State, run: seq<Action>, a: Action)
    requires EnvOk(env) && Sound(env, s) && AllKnowFate(env, fate, s, run) && Next(env, s, a).Some?
    requires a.Work? ==> FatedEvent(fate, a.ev)
    ensures var xs := SettledBy(env.cfg, s, a, run); xs == FatedAll(env.cfg, fate, MessagesOf(xs))
  {
    if a.Work? && a.p < |s.parts| && s.parts[a.p].worker.Some? {
      assert FlowOk(env, a.p, s.parts[a.p]);
      hide Step, Effect, CommittedAfter, WorkerOk, KnowsFate, Told, Settles, FatedEvent, Flow, Slice;
      SettledAsFated(env.cfg, fate, s.parts[a.p].worker.value, a.ev, Told(run, a.p));
      assert MessagesOf(SettledBy(env.cfg, s, a, run)) == Settles(s.parts[a.p].worker.value, a.ev);
    }
  }

  /**
   * When the service's answer depends on the transaction alone, that is handling each message by the fate of its
   * transaction.
   */
  lemma {:induction false} BatchingRefinesOneAtATime(env: Env, fate: Fate, run: seq<Action>)
    requires EnvOk(env) && Reach(env, run).Some? && CalmRun(run) && FatedRun(fate, run)
    ensures var s := Reach(env, run).value;
            && s.world == HandleEach(env.cfg, World([], []), FatedAll(env.cfg, fate, Order(env, run)))
            && |s.parts| == |env.logs|
            && forall p :: 0 <= p < |s.parts| ==> InStep(env, p, s.parts[p], Order(env, run))
  {
    hide *;
    BatchingIsSequential(env, run);
    FatedOutcomes(env, fate, run);
  }

  /**
   * With one partition the batched run ends, whenever its worker is at its select, in exactly the table, dead-letter
   * topic and committed offset of calling handleMessage on the messages below that offset in turn.
   */
  lemma {:induction false} OnePartitionIsSequential(env: Env, fate: Fate, run: seq<Action>)
    requires EnvOk(env) && Reach(env, run).Some? && CalmRun(run) && FatedRun(fate, run) && |env.logs| == 1
    ensures var s := Reach(env, run).value;
            && |s.parts| == 1
            && (s.parts[0].worker.Some? && s.parts[0].worker.value.pc.Select? ==>
                  s.parts[0].committed <= |env.logs[0]| && s.world == OneAtATime(env, fate, 0, s.parts[0].committed))
  {
    BatchingRefinesOneAtATime(env, fate, run);
    OrderIsInLog(env, run);
    hide Reach, Outcomes, HandleEach, SettledOffset;
    OfOnePartition(Order(env, run), 0, 0);
  }

  predicate PartitionsInLog(env: Env, xs: seq<Answered>) {
    forall i :: 0 <= i < |xs| ==> xs[i].m.partition < |env.logs|
  }

  /** Only partitions of the log occur in the order. */
  lemma {:induction false} OrderIsInLog(env: Env, run: seq<Action>)
    requires EnvOk(env) && Reach(env, run).Some?
    ensures PartitionsInLog(env, Outcomes(env, run))
  {
    if run != [] {
      hide Sound, Next, Reach, Outcomes, SettledBy;
      var before, s, a := LastAction(env, run);
      OrderIsInLog(env, before);
      EveryRun(env, before);
      SettledByInLog(env, s, a, before);
    }
  }

  lemma SettledByInLog(env: Env, s: State, a: Action, run: seq<Action>)
    requires EnvOk(env) && Sound(env, s)
    ensures PartitionsInLog(env, SettledBy(env.cfg, s, a, run))
  {
    if a.Work? && a.p < |s.parts| && s.parts[a.p].worker.Some? {
      assert FlowOk(env, a.p, s.parts[a.p]);
      SettlesUnfinished(env.cfg, s.parts[a.p].worker.value, a.ev);
      hide WorkerOk, Unfinished, Settles, ChannelsOk, HeldOk;
      var xs := SettledBy(env.cfg, s, a, run);
      forall i | 0 <= i < |xs|
        ensures xs[i].m.partition < |env.logs|
      {
        assert xs[i].m == Flow(s.parts[a.p])[i];
      }
    }
  }

  lemma SettlesUnfinished(cfg: Config, w: Worker, ev: Event)
    requires Normalized(cfg) && WorkerOk(cfg, w)
    ensures |Settles(w, ev)| <= |Unfinished(w)|
    ensures forall i :: 0 <= i < |Settles(w, ev)| ==> Settles(w, ev)[i] == Unfinished(w)[i]
  {
  }
}
