/**
 * The consumer as a transition system: one fetch loop, one worker per partition, cancellation, failing services and
 * restarts, in every interleaving. A run is a sequence of actions; Next gives the state after one action, or None
 * when the action is not possible.
 */
module Pipeline {
  import opened Base
  import opened Messages
  import opened Worker
  import opened World

  /** PartitionWorkerQueueSize. */
  const QUEUE_SIZE: nat := 128

  /** logs[p] is the whole content of partition p, by offset. */
  datatype Env = Env(cfg: Config, logs: seq<seq<Payload>>)

  /** A dead-letter failure that cannot be retried, with the message it left uncommitted. */
  datatype Fatal = Fatal(letter: Msg)

  datatype Cancel = Running | External | ByFatal(f: Fatal)

  /**
   * How Start leaves its loop: what it returns, and whether it leaves early, because FetchMessage answered with
   * context.Canceled while the context of the loop was live.
   */
  datatype Exit = Exit(result: Option<Fatal>, early: bool)

  /** The position of Start: its loop, then the deferred shutdown. */
  datatype Loop =
    | Fetching
    | Holding(m: Msg)
    | Closing(todo: set<nat>, exit: Exit)
    | Draining(exit: Exit)
    | Finished(exit: Exit)
    | Panicked

  /**
   * position is the offset FetchMessage returns next, delivered the offset after the last message put into the
   * channel; spawned and closed count how often, in this incarnation, a worker was started and its channel closed.
   */
  datatype Part = Part(
    committed: nat,
    position: nat,
    delivered: nat,
    queue: seq<Msg>,
    worker: Option<Worker>,
    spawned: nat,
    closed: nat)

  datatype State = State(
    world: World,
    inflight: int,
    cancel: Cancel,
    fatal: Option<Fatal>,
    loop: Loop,
    parts: seq<Part>)

  datatype Action =
    | Work(p: nat, ev: Event)   // worker p performs ev
    | Fetch(p: nat)             // FetchMessage returns the next message of partition p, and its worker exists
    | FetchFailed               // FetchMessage fails with anything but context.Canceled
    | Send                      // the held message enters its channel
    | Leave                     // the loop returns on a cancelled context
    | LeaveEarly                // FetchMessage fails with context.Canceled on a live context
    | Close(p: nat)             // the deferred shutdown closes a channel
    | BeginDrain
    | EndDrain                  // all workers are done, or the drain timed out; the deferred cancel runs
    | CancelApp                 // the application context is cancelled from outside
    | Restart                   // crash, or exit, and a new incarnation from the committed offsets

  predicate EnvOk(env: Env) {
    Normalized(env.cfg)
  }

  function MsgAt(env: Env, p: nat, o: nat): Msg
    requires p < |env.logs| && o < |env.logs[p]|
  {
    Msg(p, o, env.logs[p][o])
  }

  /** The messages of partition p with offsets from a up to b. */
  function Slice(env: Env, p: nat, a: nat, b: nat): (ms: seq<Msg>)
    requires p < |env.logs| && a <= b <= |env.logs[p]|
    ensures |ms| == b - a
    ensures forall i :: 0 <= i < b - a ==> ms[i] == MsgAt(env, p, a + i)
  {
    seq(b - a, i requires 0 <= i < b - a => MsgAt(env, p, a + i))
  }

  function FreshPart(committed: nat): Part {
    Part(committed, committed, committed, [], None, 0, 0)
  }

  function Init(env: Env): State {
    State(World([], []), 0, Running, None, Fetching, seq(|env.logs|, p => FreshPart(0)))
  }

  predicate Cancelled(s: State) {
    s.cancel != Running
  }

  /** What the environment allows: the answer of the context, the channel and the services. */
  predicate Admits(env: Env, s: State, part: Part, ev: Event) {
    match ev
    case Receive(m) => part.queue != [] && part.queue[0] == m
    case ReceiveClosed => part.queue == [] && part.closed > 0
    case CtxCheck(cancelled) => cancelled == Cancelled(s)
    case BulkService(_, r) => Cancelled(s) ==> !Applied(r)
    case Service(_, r) => (Cancelled(s) ==> !Applied(r)) && Unmixed(ev)
    case WriteDlq(_, _, r) => r.NotConfigured? <==> !env.cfg.hasWriter
    case _ => true
  }

  function PartAfter(part: Part, w': Worker, ev: Event): Part {
    part.(
    worker := Some(w'),
    queue := if ev.Receive? && part.queue != [] then part.queue[1..] else part.queue,
    committed := CommittedAfter(part.committed, ev))
  }

  /** triggerFatal: the first fatal error is kept and cancels the context. */
  function FatalAfter(s: State, ev: Event): Option<Fatal> {
    if ev.WriteDlq? && ev.dlqResult.NotConfigured? && s.fatal.None? then Some(Fatal(ev.letter)) else s.fatal
  }

  function CancelAfter(s: State, ev: Event): Cancel {
    if ev.WriteDlq? && ev.dlqResult.NotConfigured? && s.fatal.None? && s.cancel.Running? then ByFatal(Fatal(ev.letter))
    else s.cancel
  }

  function AfterWork(s: State, p: nat, ev: Event, w': Worker): State
    requires p < |s.parts|
  {
    s.(
    world := Effect(s.world, ev),
    inflight := s.inflight + (if ev.Add? then ev.delta else 0),
    cancel := CancelAfter(s, ev),
    fatal := FatalAfter(s, ev),
    parts := s.parts[p := PartAfter(s.parts[p], w', ev)])
  }

  function WorkNext(env: Env, s: State, p: nat, ev: Event): Option<State> {
    if p >= |s.parts| || s.parts[p].worker.None? || !Admits(env, s, s.parts[p], ev) then None
    else
      var next := Step(env.cfg, s.parts[p].worker.value, ev);
      if next.None? then None else Some(AfterWork(s, p, ev, next.value))
  }

  function FetchNext(env: Env, s: State, p: nat): Option<State> {
    if !s.loop.Fetching? || p >= |s.parts| || p >= |env.logs| || s.parts[p].position >= |env.logs[p]| then None
    else
      var part := s.parts[p];
      var started :=
        if part.worker.None? then part.(worker := Some(FreshWorker), spawned := part.spawned + 1) else part;
      Some(s.(
        loop := Holding(MsgAt(env, p, part.position)),
        parts := s.parts[p := started.(position := part.position + 1)]))
  }

  function SendNext(s: State): Option<State> {
    if !s.loop.Holding? || s.loop.m.partition >= |s.parts| then None
    else
      var p := s.loop.m.partition;
      var part := s.parts[p];
      if part.closed > 0 then Some(s.(loop := Panicked))
      else if |part.queue| >= QUEUE_SIZE then None
      else
        var part' := part.(queue := part.queue + [s.loop.m], delivered := part.delivered + 1);
        Some(s.(loop := Fetching, parts := s.parts[p := part']))
  }

  function Started(parts: seq<Part>): set<nat> {
    set p: nat | p < |parts| && parts[p].worker.Some?
  }

  function LeaveNext(s: State): Option<State> {
    if (s.loop.Fetching? || s.loop.Holding?) && Cancelled(s) then
      Some(s.(loop := Closing(Started(s.parts), Exit(s.fatal, false))))
    else None
  }

  function CloseNext(s: State, p: nat): Option<State> {
    if !s.loop.Closing? || p !in s.loop.todo || p >= |s.parts| then None
    else if s.parts[p].closed > 0 then Some(s.(loop := Panicked))
    else
      Some(s.(
        loop := Closing(s.loop.todo - {p}, s.loop.exit),
        parts := s.parts[p := s.parts[p].(closed := s.parts[p].closed + 1)]))
  }

  function LeaveEarlyNext(s: State): Option<State> {
    if s.loop.Fetching? && !Cancelled(s) then Some(s.(loop := Closing(Started(s.parts), Exit(s.fatal, true)))) else None
  }

  function CancelNext(s: State): State {
    if Cancelled(s) then s else s.(cancel := External)
  }

  function RestartNext(s: State): State {
    State(s.world, 0, Running, None, Fetching,
          seq(|s.parts|, p requires 0 <= p < |s.parts| => FreshPart(s.parts[p].committed)))
  }

  function Next(env: Env, s: State, a: Action): Option<State> {
    match a
    case Work(p, ev) => WorkNext(env, s, p, ev)
    case Fetch(p) => FetchNext(env, s, p)
    case FetchFailed => if s.loop.Fetching? then Some(s) else None
    case Send => SendNext(s)
    case Leave => LeaveNext(s)
    case Close(p) => CloseNext(s, p)
    case LeaveEarly => LeaveEarlyNext(s)
    case BeginDrain =>
      if s.loop.Closing? && s.loop.todo == {} then Some(s.(loop := Draining(s.loop.exit))) else None
    case EndDrain => if s.loop.Draining? then Some(CancelNext(s.(loop := Finished(s.loop.exit)))) else None
    case CancelApp => Some(CancelNext(s))
    case Restart => Some(RestartNext(s))
  }

  /** The state a run ends in, when it starts in s. */
  function RunFrom(env: Env, s: State, run: seq<Action>): Option<State> {
    if run == [] then Some(s)
    else
      var before := RunFrom(env, s, run[..|run| - 1]);
      if before.None? then None else Next(env, before.value, run[|run| - 1])
  }

  function Reach(env: Env, run: seq<Action>): Option<State> {
    RunFrom(env, Init(env), run)
  }

  /** A run goes on where its beginning ended. */
  lemma {:induction false} RunConcat(env: Env, s: State, run: seq<Action>, more: seq<Action>)
    requires RunFrom(env, s, run).Some?
    ensures RunFrom(env, s, run + more) == RunFrom(env, RunFrom(env, s, run).value, more)
  {
    hide Next;
    if more == [] {
      assert run + more == run;
    } else {
      assert (run + more)[..|run + more| - 1] == run + more[..|more| - 1];
      RunConcat(env, s, run, more[..|more| - 1]);
    }
  }

  lemma RunOne(env: Env, s: State, a: Action)
    ensures RunFrom(env, s, [a]) == Next(env, s, a)
  {
    hide Next;
    assert [a][..0] == [];
  }

  /** What an interaction of a worker changes, and what it does not. */
  lemma WorkShape(env: Env, s: State, p: nat, ev: Event)
    requires WorkNext(env, s, p, ev).Some?
    ensures var s' := WorkNext(env, s, p, ev).value;
            && p < |s.parts| == |s'.parts| && s.parts[p].worker.Some? && s'.parts[p].worker.Some?
            && Step(env.cfg, s.parts[p].worker.value, ev) == s'.parts[p].worker
            && s'.parts == s.parts[p := s'.parts[p]] && s'.parts[p].closed == s.parts[p].closed
            && s'.world == Effect(s.world, ev)
            && (Cancelled(s) ==> Cancelled(s')) && (ev == CtxCheck(true) ==> Cancelled(s))
  {
    hide Step, Effect, CommittedAfter;
  }

  // ---------------------------------------------------------------------------------------------------------
  // Order and memory: what the fetch position, the channel and the worker have in common in every run
  // ---------------------------------------------------------------------------------------------------------

  /** The message of partition p that the fetch loop holds. */
  function Held(loop: Loop, p: nat): seq<Msg> {
    if loop.Holding? && loop.m.partition == p then [loop.m] else []
  }

  function WorkerPart(part: Part): seq<Msg> {
    if part.worker.Some? then Unfinished(part.worker.value) else []
  }

  /** Everything delivered to a partition's worker and not finished with: in the worker, then in the channel. */
  function Flow(part: Part): seq<Msg> {
    WorkerPart(part) + part.queue
  }

  /** The offset of the first delivered message that is not finished with. */
  function Frontier(part: Part): int {
    part.delivered - |Flow(part)|
  }

  /** The flow of a partition is the stretch of its log that ends at the delivery position, in order. */
  ghost predicate FlowOk(env: Env, p: nat, part: Part)
    requires p < |env.logs|
  {
    && |Flow(part)| <= part.delivered <= part.position <= |env.logs[p]|
    && Flow(part) == Slice(env, p, part.delivered - |Flow(part)|, part.delivered)
    && part.committed <= part.delivered
    && |part.queue| <= QUEUE_SIZE
    && (part.worker.Some? ==> WorkerOk(env.cfg, part.worker.value))
    && (part.worker.None? ==> part.queue == [])
  }

  /** While the fetch loop runs, what it has fetched is delivered, except for the one message it holds. */
  ghost predicate HeldOk(env: Env, loop: Loop, p: nat, part: Part)
    requires p < |env.logs|
  {
    && (loop.Fetching? ==> part.position == part.delivered)
    && (loop.Holding? && loop.m.partition != p ==> part.position == part.delivered)
    && (loop.Holding? && loop.m.partition == p ==>
          part.position == part.delivered + 1 <= |env.logs[p]| && loop.m == MsgAt(env, p, part.delivered))
  }

  ghost predicate OrderOk(env: Env, s: State) {
    && |s.parts| == |env.logs|
    && (forall p :: 0 <= p < |s.parts| ==> FlowOk(env, p, s.parts[p]))
    && (forall p :: 0 <= p < |s.parts| ==> HeldOk(env, s.loop, p, s.parts[p]))
  }

  lemma InitOrderOk(env: Env)
    ensures OrderOk(env, Init(env))
  {
  }

  lemma DropPrefix(env: Env, p: nat, a: nat, b: nat, n: nat)
    requires p < |env.logs| && a <= b <= |env.logs[p]| && n <= b - a
    ensures Slice(env, p, a, b)[n..] == Slice(env, p, a + n, b)
  {
  }

  lemma AppendNext(env: Env, p: nat, a: nat, b: nat)
    requires p < |env.logs| && a <= b < |env.logs[p]|
    ensures Slice(env, p, a, b) + [MsgAt(env, p, b)] == Slice(env, p, a, b + 1)
  {
  }

  lemma DropFromFirst(u: seq<Msg>, queue: seq<Msg>, n: nat)
    requires n <= |u|
    ensures u[n..] + queue == (u + queue)[n..]
  {
  }

  lemma TakeFromQueue(u: seq<Msg>, queue: seq<Msg>)
    requires queue != []
    ensures (u + [queue[0]]) + queue[1..] == u + queue
  {
  }

  /** After a worker's step its partition's flow has lost exactly the prefix the worker dropped. */
  lemma WorkFlow(env: Env, s: State, p: nat, ev: Event) returns (n: nat)
    requires EnvOk(env) && OrderOk(env, s) && WorkNext(env, s, p, ev).Some?
    ensures var part' := WorkNext(env, s, p, ev).value.parts[p];
            && n <= |Flow(s.parts[p])| && Flow(part') == Flow(s.parts[p])[n..]
            && WorkerOk(env.cfg, part'.worker.value)
    ensures Justified(s.parts[p].worker.value, ev, n)
  {
    var part := s.parts[p];
    var w := part.worker.value;
    hide Step, Effect, Unfinished, WorkerOk, CommittedAfter, Slice, Justified;
    assert FlowOk(env, p, part);
    StepKeepsWorkerOk(env.cfg, w, ev);
    n := StepMovesUnfinished(env.cfg, w, ev);
    if ev.Receive? {
      TakeFromQueue(Unfinished(w), part.queue);
    } else {
      DropFromFirst(Unfinished(w), part.queue, n);
    }
  }

  /** The messages a worker is committing are the first of the flow. */
  lemma CommittingIsFlowPrefix(env: Env, p: nat, part: Part)
    requires EnvOk(env) && p < |env.logs| && FlowOk(env, p, part) && part.worker.Some?
    ensures var ms := Committing(part.worker.value);
            && |ms| <= |Flow(part)| && 0 <= Frontier(part) && Frontier(part) + |ms| <= |env.logs[p]|
            && forall i :: 0 <= i < |ms| ==> ms[i] == Flow(part)[i] == MsgAt(env, p, Frontier(part) + i)
  {
    hide WorkerOk, Unfinished, Committing;
    UnfinishedBounded(env.cfg, part.worker.value);
  }

  /** A commit covers the first messages of the flow, so it never passes the delivery position. */
  lemma CommitWithinFlow(env: Env, s: State, p: nat, ev: Event)
    requires EnvOk(env) && OrderOk(env, s) && WorkNext(env, s, p, ev).Some?
    ensures WorkNext(env, s, p, ev).value.parts[p].committed <= s.parts[p].delivered
    ensures ev.Commit? ==> ev.msgs == Committing(s.parts[p].worker.value)
    ensures ev.Commit? && ev.msgs != [] ==>
              ev.msgs[|ev.msgs| - 1].offset + 1 == Frontier(s.parts[p]) + |ev.msgs| <= s.parts[p].delivered
  {
    assert FlowOk(env, p, s.parts[p]);
    CommittingIsFlowPrefix(env, p, s.parts[p]);
    hide Step, Effect, Slice, WorkerOk, Unfinished, Committing, Flow;
    var n := StepMovesUnfinished(env.cfg, s.parts[p].worker.value, ev);
  }

  /** A change confined to partition p concerns the order of partition p only. */
  lemma OnlyPartition(env: Env, s: State, s': State, p: nat)
    requires OrderOk(env, s) && p < |s.parts| == |s'.parts| && s'.parts == s.parts[p := s'.parts[p]]
    requires forall q: nat :: q < |s.parts| && q != p ==> HeldOk(env, s'.loop, q, s.parts[q])
    requires FlowOk(env, p, s'.parts[p]) && HeldOk(env, s'.loop, p, s'.parts[p])
    ensures OrderOk(env, s')
  {
    hide FlowOk, HeldOk;
  }

  lemma WorkKeepsOrder(env: Env, s: State, p: nat, ev: Event)
    requires EnvOk(env) && OrderOk(env, s) && WorkNext(env, s, p, ev).Some?
    ensures OrderOk(env, WorkNext(env, s, p, ev).value)
  {
    hide Step, Effect, Unfinished, WorkerOk, CommittedAfter, Slice, Flow;
    var part := s.parts[p];
    var s' := WorkNext(env, s, p, ev).value;
    var n := WorkFlow(env, s, p, ev);
    assert FlowOk(env, p, part);
    DropPrefix(env, p, Frontier(part), part.delivered, n);
    CommitWithinFlow(env, s, p, ev);
    assert FlowOk(env, p, s'.parts[p]);
    assert HeldOk(env, s.loop, p, part);
    OnlyPartition(env, s, s', p);
  }

  lemma FetchKeepsOrder(env: Env, s: State, p: nat)
    requires EnvOk(env) && OrderOk(env, s) && FetchNext(env, s, p).Some?
    ensures OrderOk(env, FetchNext(env, s, p).value)
  {
    var s' := FetchNext(env, s, p).value;
    FetchKeepsFlow(env, s, p);
    hide FlowOk;
    assert HeldOk(env, s.loop, p, s.parts[p]);
    assert forall q: nat :: q < |s.parts| ==> HeldOk(env, s.loop, q, s.parts[q]);
    OnlyPartition(env, s, s', p);
  }

  /** A worker starts with nothing in hand. */
  lemma StartKeepsFlow(env: Env, p: nat, part: Part)
    requires EnvOk(env) && p < |env.logs| && FlowOk(env, p, part) && part.worker.None?
    ensures FlowOk(env, p, part.(worker := Some(FreshWorker), spawned := part.spawned + 1))
  {
    assert Unfinished(FreshWorker) == [] && WorkerOk(env.cfg, FreshWorker);
    hide WorkerOk, Unfinished, Slice;
    assert Flow(part.(worker := Some(FreshWorker), spawned := part.spawned + 1)) == Flow(part);
  }

  lemma PositionKeepsFlow(env: Env, p: nat, part: Part)
    requires p < |env.logs| && FlowOk(env, p, part) && part.position < |env.logs[p]|
    ensures FlowOk(env, p, part.(position := part.position + 1))
  {
    hide WorkerOk, Slice, Unfinished;
    assert Flow(part.(position := part.position + 1)) == Flow(part);
  }

  lemma FetchKeepsFlow(env: Env, s: State, p: nat)
    requires EnvOk(env) && OrderOk(env, s) && FetchNext(env, s, p).Some?
    ensures FlowOk(env, p, FetchNext(env, s, p).value.parts[p])
  {
    hide FlowOk, HeldOk;
    var part := s.parts[p];
    if part.worker.None? {
      StartKeepsFlow(env, p, part);
      part := part.(worker := Some(FreshWorker), spawned := part.spawned + 1);
    }
    PositionKeepsFlow(env, p, part);
  }

  lemma SendKeepsOrder(env: Env, s: State)
    requires EnvOk(env) && OrderOk(env, s) && SendNext(s).Some? && !SendNext(s).value.loop.Panicked?
    requires s.parts[s.loop.m.partition].worker.Some?
    ensures OrderOk(env, SendNext(s).value)
  {
    var s' := SendNext(s).value;
    var p := s.loop.m.partition;
    SendKeepsFlow(env, s);
    hide FlowOk;
    assert HeldOk(env, s.loop, p, s.parts[p]);
    assert forall q: nat :: q < |s.parts| ==> HeldOk(env, s.loop, q, s.parts[q]);
    OnlyPartition(env, s, s', p);
  }

  lemma SendKeepsFlow(env: Env, s: State)
    requires EnvOk(env) && OrderOk(env, s) && SendNext(s).Some? && !SendNext(s).value.loop.Panicked?
    requires s.parts[s.loop.m.partition].worker.Some?
    ensures FlowOk(env, s.loop.m.partition, SendNext(s).value.parts[s.loop.m.partition])
  {
    var p := s.loop.m.partition;
    var part := s.parts[p];
    assert FlowOk(env, p, part) && HeldOk(env, s.loop, p, part);
    AppendNext(env, p, Frontier(part), part.delivered);
    hide WorkerOk, Unfinished, Slice;
    assert Flow(SendNext(s).value.parts[p]) == Flow(part) + [s.loop.m];
  }

  lemma RestartKeepsOrder(env: Env, s: State)
    requires EnvOk(env) && OrderOk(env, s)
    ensures OrderOk(env, RestartNext(s))
  {
    var s' := RestartNext(s);
    forall p: nat | p < |s.parts|
      ensures FlowOk(env, p, s'.parts[p]) && HeldOk(env, s'.loop, p, s'.parts[p])
    {
      assert FlowOk(env, p, s.parts[p]);
    }
  }
}
