/** Effectively once: whatever is redelivered, retried or applied behind an error, the table does not show it. */
module Once {
  import Commits
  import Domain
  import Messages
  import NoLoss
  import opened Store
  import opened Worker
  import opened World
  import opened Pipeline
  import opened Protocol

  predicate InLog(env: Env, p: nat, o: nat) {
    p < |env.logs| && o < |env.logs[p]|
  }

  /** The row of some valid message of the log. */
  ghost predicate FromLog(env: Env, row: Row) {
    exists p: nat, o: nat ::
      InLog(env, p, o) && Valid(env.cfg, MsgAt(env, p, o)) && RowOf(TxOf(env.cfg, MsgAt(env, p, o))) == row
  }

  /** A dead letter is a message of the log. */
  ghost predicate LetterFromLog(env: Env, m: Messages.Msg) {
    exists p: nat, o: nat :: InLog(env, p, o) && MsgAt(env, p, o) == m
  }

  ghost predicate WorldFromLog(env: Env, world: World) {
    && NoDuplicates(world.table)
    && (forall row :: row in world.table ==> FromLog(env, row))
    && (forall l :: l in world.dlq ==> LetterFromLog(env, l.msg))
  }

  /** What a worker sends out is the head of its unfinished messages. */
  lemma SendsUnfinished(cfg: Config, w: Worker, ev: Event)
    requires Normalized(cfg) && WorkerOk(cfg, w) && Step(cfg, w, ev).Some?
    ensures ev.BulkService? ==>
              |ev.txs| <= |Unfinished(w)|
              && forall i :: 0 <= i < |ev.txs| ==>
                               Valid(cfg, Unfinished(w)[i]) && ev.txs[i] == TxOf(cfg, Unfinished(w)[i])
    ensures ev.Service? ==> |Unfinished(w)| > 0 && Valid(cfg, Unfinished(w)[0]) && ev.tx == TxOf(cfg, Unfinished(w)[0])
    ensures ev.WriteDlq? ==> |Unfinished(w)| > 0 && ev.letter == Unfinished(w)[0]
  {
    if w.pc.Handle? {
      HandleSends(cfg, w, w.pc.h, w.pc.m, w.pc.caller, ev);
      hide HandleStep, HandleOk;
    } else if InBulk(w.pc) {
      hide HandleStep, FrameStep, ReceivedStep;
    } else {
      FrameSendsNothing(cfg, w, ev);
      hide Step;
    }
  }

  lemma HandleSends(cfg: Config, w: Worker, h: HandlePc, m: Messages.Msg, caller: Caller, ev: Event)
    requires HandleOk(cfg, h, m) && HandleStep(cfg, w, h, m, caller, ev).Some?
    ensures !ev.BulkService?
    ensures ev.Service? ==> Valid(cfg, m) && ev.tx == TxOf(cfg, m)
    ensures ev.WriteDlq? ==> ev.letter == m
  {
  }

  lemma FrameSendsNothing(cfg: Config, w: Worker, ev: Event)
    requires Step(cfg, w, ev).Some? && !InBulk(w.pc) && !w.pc.Handle?
    ensures !ev.BulkService? && !ev.Service? && !ev.WriteDlq?
  {
    hide HandleStep, BulkStep;
  }

  /** Unfinished messages are messages of the log. */
  lemma UnfinishedInLog(env: Env, s: State, p: nat, i: nat)
    requires OrderOk(env, s) && p < |s.parts| && s.parts[p].worker.Some? && i < |Unfinished(s.parts[p].worker.value)|
    ensures 0 <= Frontier(s.parts[p]) && InLog(env, p, Frontier(s.parts[p]) + i)
    ensures Frontier(s.parts[p]) + i < s.parts[p].position
    ensures Unfinished(s.parts[p].worker.value)[i] == MsgAt(env, p, Frontier(s.parts[p]) + i)
  {
    hide Unfinished, WorkerOk;
    assert FlowOk(env, p, s.parts[p]);
    assert Flow(s.parts[p])[i] == Unfinished(s.parts[p].worker.value)[i];
  }

  lemma {:induction false} SavedRowsFromLog(env: Env, s: State, p: nat, txs: seq<Domain.Transaction>)
    requires OrderOk(env, s) && WorldFromLog(env, s.world) && p < |s.parts| && s.parts[p].worker.Some?
    requires |txs| <= |Unfinished(s.parts[p].worker.value)|
    requires forall i :: 0 <= i < |txs| ==>
                           && Valid(env.cfg, Unfinished(s.parts[p].worker.value)[i])
                           && txs[i] == TxOf(env.cfg, Unfinished(s.parts[p].worker.value)[i])
    ensures WorldFromLog(env, s.world.(table := SaveAll(s.world.table, txs)))
  {
    hide OrderOk, Unfinished, Frontier, NoDuplicates, FromLog, LetterFromLog;
    SaveAllKeepsUnique(s.world.table, txs);
    forall row | row in SaveAll(s.world.table, txs)
      ensures FromLog(env, row)
    {
      SaveAllRows(s.world.table, txs, row);
      if row !in s.world.table {
        var i :| 0 <= i < |txs| && RowOf(txs[i]) == row;
        UnfinishedInLog(env, s, p, i);
        FromLogAt(env, p, Frontier(s.parts[p]) + i, row);
      }
    }
  }

  /** What a worker sends out is from the log, so what it leaves in the world is, too. */
  lemma {:induction false} SentFromLog(env: Env, s: State, p: nat, ev: Event)
    requires OrderOk(env, s) && WorldFromLog(env, s.world) && p < |s.parts| && s.parts[p].worker.Some?
    requires EnvOk(env) && WorkerOk(env.cfg, s.parts[p].worker.value)
    requires Step(env.cfg, s.parts[p].worker.value, ev).Some?
    ensures WorldFromLog(env, Effect(s.world, ev))
  {
    SendsUnfinished(env.cfg, s.parts[p].worker.value, ev);
    hide Step, WorkerOk, Unfinished, OrderOk, Frontier, NoDuplicates, FromLog, LetterFromLog;
    if ev.BulkService? {
      SavedRowsFromLog(env, s, p, ev.txs);
    } else if ev.Service? {
      SaveAllSingle(s.world.table, ev.tx);
      SavedRowsFromLog(env, s, p, [ev.tx]);
    } else if ev.WriteDlq? {
      UnfinishedInLog(env, s, p, 0);
      LetterAt(env, p, Frontier(s.parts[p]));
    }
  }

  lemma {:induction false} WorkKeepsWorldFromLog(env: Env, s: State, p: nat, ev: Event)
    requires EnvOk(env) && Sound(env, s) && WorldFromLog(env, s.world) && WorkNext(env, s, p, ev).Some?
    ensures WorldFromLog(env, WorkNext(env, s, p, ev).value.world)
  {
    assert FlowOk(env, p, s.parts[p]);
    hide Step, WorkerOk, Effect, WorldFromLog, Flow, Slice, HeldOk, ChannelsOk, CommittedAfter;
    SentFromLog(env, s, p, ev);
  }

  lemma FromLogAt(env: Env, p: nat, o: nat, row: Row)
    requires InLog(env, p, o) && Valid(env.cfg, MsgAt(env, p, o)) && RowOf(TxOf(env.cfg, MsgAt(env, p, o))) == row
    ensures FromLog(env, row)
  {
  }

  lemma LetterAt(env: Env, p: nat, o: nat)
    requires InLog(env, p, o)
    ensures LetterFromLog(env, MsgAt(env, p, o))
  {
  }

  /**
   * Effectively-once store: in every run, the table never holds two rows with the same key, and holds rows of valid
   * messages of the log only; the dead-letter topic holds messages of the log only.
   */
  lemma {:induction false} StoredOnce(env: Env, run: seq<Action>)
    requires EnvOk(env) && Reach(env, run).Some?
    ensures WorldFromLog(env, Reach(env, run).value.world)
  {
    if run != [] {
      var before := run[..|run| - 1];
      hide Sound, WorldFromLog, Next;
      StoredOnce(env, before);
      EveryRun(env, before);
      NextKeepsWorldFromLog(env, Reach(env, before).value, run[|run| - 1]);
    }
  }

  lemma NextKeepsWorldFromLog(env: Env, s: State, a: Action)
    requires EnvOk(env) && Sound(env, s) && WorldFromLog(env, s.world) && Next(env, s, a).Some?
    ensures WorldFromLog(env, Next(env, s, a).value.world)
  {
    hide Sound, WorldFromLog, WorkNext;
    if a.Work? {
      WorkKeepsWorldFromLog(env, s, a.p, a.ev);
    }
  }

  /** Every valid message that a worker has in hand is stored. */
  predicate StoredInHand(cfg: Config, table: Table, w: Worker) {
    forall i :: 0 <= i < |Unfinished(w)| && Valid(cfg, Unfinished(w)[i]) ==>
                  RowOf(TxOf(cfg, Unfinished(w)[i])) in table
  }

  /** A worker with nothing new in hand leaves the table alone. */
  lemma SendsNothingNew(cfg: Config, world: World, w: Worker, ev: Event)
    requires Normalized(cfg) && WorkerOk(cfg, w) && Step(cfg, w, ev).Some? && StoredInHand(cfg, world.table, w)
    ensures Effect(world, ev).table == world.table
  {
    SendsUnfinished(cfg, w, ev);
    hide Step, WorkerOk, Unfinished;
    if ev.BulkService? {
      SaveAllAgain(world.table, ev.txs);
    }
  }

  lemma RedeliveredStep(env: Env, s: State, p: nat, ev: Event)
    requires EnvOk(env) && Sound(env, s) && WorkNext(env, s, p, ev).Some?
    requires p < |s.parts| && s.parts[p].worker.Some?
    requires StoredInHand(env.cfg, s.world.table, s.parts[p].worker.value)
    ensures WorkNext(env, s, p, ev).value.world.table == s.world.table
  {
    assert FlowOk(env, p, s.parts[p]);
    hide Step, Effect, WorkerOk, StoredInHand, ChannelsOk, Flow, Slice, HeldOk, CommittedAfter;
    SendsNothingNew(env.cfg, s.world, s.parts[p].worker.value, ev);
  }

  /**
   * Redelivery is invisible: in every run, while every valid message that a worker has in hand is already stored,
   * nothing the worker does, and no call that fails after it was applied, changes the table.
   */
  lemma {:induction false} RedeliveryChangesNothing(env: Env, run: seq<Action>, p: nat, ev: Event)
    requires EnvOk(env) && Reach(env, run).Some? && WorkNext(env, Reach(env, run).value, p, ev).Some?
    requires var s := Reach(env, run).value;
             && p < |s.parts| && s.parts[p].worker.Some?
             && StoredInHand(env.cfg, s.world.table, s.parts[p].worker.value)
    ensures WorkNext(env, Reach(env, run).value, p, ev).value.world.table == Reach(env, run).value.world.table
  {
    hide *;
    EveryRun(env, run);
    RedeliveredStep(env, Reach(env, run).value, p, ev);
  }

  /** The offsets of a partition from low up to end. */
  datatype Range = Range(low: int, end: int)

  /** Every valid message in the ranges, one for each partition, has its row in the table. */
  ghost predicate RangesStored(env: Env, table: Table, ranges: seq<Range>) {
    forall p: nat, o: nat ::
      p < |ranges| && ranges[p].low <= o < ranges[p].end && InLog(env, p, o) && Valid(env.cfg, MsgAt(env, p, o)) ==>
        RowOf(TxOf(env.cfg, MsgAt(env, p, o))) in table
  }

  /** What is unfinished or uncommitted of a partition, and what has been fetched, lies in its range. */
  predicate PartWithin(part: Part, range: Range) {
    range.low <= part.committed && range.low <= Frontier(part) && part.position <= range.end
  }

  ghost predicate Within(s: State, ranges: seq<Range>) {
    |s.parts| == |ranges| && forall p :: 0 <= p < |ranges| ==> PartWithin(s.parts[p], ranges[p])
  }

  /** The run from s fetches nothing beyond the ranges. */
  ghost predicate FetchesWithin(env: Env, s: State, run: seq<Action>, ranges: seq<Range>) {
    run != [] ==>
      && FetchesWithin(env, s, run[..|run| - 1], ranges)
      && (RunFrom(env, s, run).Some? ==>
            var s' := RunFrom(env, s, run).value;
            |s'.parts| == |ranges| && forall p :: 0 <= p < |ranges| ==> s'.parts[p].position <= ranges[p].end)
  }

  lemma RangeIsInHand(env: Env, s: State, ranges: seq<Range>, p: nat)
    requires EnvOk(env) && Sound(env, s) && RangesStored(env, s.world.table, ranges) && Within(s, ranges)
    requires p < |s.parts| && s.parts[p].worker.Some?
    ensures StoredInHand(env.cfg, s.world.table, s.parts[p].worker.value)
  {
    var ms := Unfinished(s.parts[p].worker.value);
    forall i | 0 <= i < |ms| && Valid(env.cfg, ms[i]) ensures RowOf(TxOf(env.cfg, ms[i])) in s.world.table {
      UnfinishedInLog(env, s, p, i);
      assert PartWithin(s.parts[p], ranges[p]);
      hide OrderOk, Unfinished, Frontier, ChannelsOk, InFlightOk;
    }
  }

  lemma WorkStays(env: Env, s: State, ranges: seq<Range>, p: nat, ev: Event)
    requires EnvOk(env) && Sound(env, s) && RangesStored(env, s.world.table, ranges) && Within(s, ranges)
    requires WorkNext(env, s, p, ev).Some?
    ensures var s' := WorkNext(env, s, p, ev).value;
            Within(s', ranges) && s'.world.table == s.world.table
  {
    NoLoss.WorkPartition(env, s, p, ev);
    var n := Commits.Progress(env, s, p, ev);
    assert PartWithin(s.parts[p], ranges[p]);
    hide Sound, RangesStored, Step, Effect, CommittedAfter, StoredInHand, Frontier;
    RangeIsInHand(env, s, ranges, p);
    RedeliveredStep(env, s, p, ev);
  }

  lemma LoopStays(env: Env, s: State, ranges: seq<Range>, a: Action)
    requires EnvOk(env) && Sound(env, s) && Within(s, ranges) && Next(env, s, a).Some? && !a.Work?
    requires var s' := Next(env, s, a).value;
             forall p :: 0 <= p < |s'.parts| && p < |ranges| ==> s'.parts[p].position <= ranges[p].end
    ensures var s' := Next(env, s, a).value;
            Within(s', ranges) && s'.world.table == s.world.table
  {
    var s' := Next(env, s, a).value;
    if a.Restart? {
      hide WorkNext, Sound;
      assert forall p :: 0 <= p < |s.parts| ==> PartWithin(s.parts[p], ranges[p]);
    } else {
      NoLoss.LoopSameProgress(env, s, a);
      hide Next, Sound, Frontier;
      forall p | 0 <= p < |ranges| ensures PartWithin(s'.parts[p], ranges[p]) {
        assert NoLoss.SameProgress(s.parts[p], s'.parts[p]) && PartWithin(s.parts[p], ranges[p]);
      }
    }
  }

  lemma {:induction false} StoredRun(env: Env, s: State, run: seq<Action>, ranges: seq<Range>)
    requires EnvOk(env) && Sound(env, s) && RangesStored(env, s.world.table, ranges) && Within(s, ranges)
    requires RunFrom(env, s, run).Some? && FetchesWithin(env, s, run, ranges)
    ensures Within(RunFrom(env, s, run).value, ranges)
    ensures RunFrom(env, s, run).value.world.table == s.world.table
  {
    if run != [] {
      hide Sound, RangesStored, Next, Within;
      var before := run[..|run| - 1];
      var a := run[|run| - 1];
      StoredRun(env, s, before, ranges);
      RunKeepsSound(env, s, before);
      if a.Work? {
        WorkStays(env, RunFrom(env, s, before).value, ranges, a.p, a.ev);
      } else {
        LoopStays(env, RunFrom(env, s, before).value, ranges, a);
      }
    }
  }

  /**
   * Reprocessing a stored range: when all valid messages are stored from what is uncommitted or unfinished of each
   * partition up to some end, however the run goes on, with whatever crashes and failures that may have applied, the
   * table stays what it was as long as nothing beyond those ends is fetched.
   */
  lemma {:induction false} RangeChangesNothing(env: Env, run: seq<Action>, more: seq<Action>, ranges: seq<Range>)
    requires EnvOk(env) && Reach(env, run).Some? && Within(Reach(env, run).value, ranges)
    requires RangesStored(env, Reach(env, run).value.world.table, ranges)
    requires RunFrom(env, Reach(env, run).value, more).Some?
    requires FetchesWithin(env, Reach(env, run).value, more, ranges)
    ensures RunFrom(env, Reach(env, run).value, more).value.world.table == Reach(env, run).value.world.table
  {
    hide *;
    EveryRun(env, run);
    StoredRun(env, Reach(env, run).value, more, ranges);
  }

  function WholeLog(env: Env): seq<Range> {
    seq(|env.logs|, p requires 0 <= p < |env.logs| => Range(0, |env.logs[p]|))
  }

  lemma WithinWholeLog(env: Env, s: State)
    requires OrderOk(env, s)
    ensures Within(s, WholeLog(env))
  {
    forall p | 0 <= p < |s.parts| ensures PartWithin(s.parts[p], WholeLog(env)[p]) {
      assert FlowOk(env, p, s.parts[p]);
      hide Flow, Slice;
    }
  }

  lemma {:induction false} FetchesWholeLog(env: Env, s: State, run: seq<Action>)
    requires EnvOk(env) && Sound(env, s) && RunFrom(env, s, run).Some?
    ensures FetchesWithin(env, s, run, WholeLog(env))
  {
    if run != [] {
      FetchesWholeLog(env, s, run[..|run| - 1]);
      RunKeepsSound(env, s, run);
      WithinWholeLog(env, RunFrom(env, s, run).value);
      hide RunFrom, OrderOk, ChannelsOk, InFlightOk, Frontier;
    }
  }

  /** In particular a log that has been stored as a whole can be consumed again from anywhere. */
  lemma {:induction false} ReprocessingChangesNothing(env: Env, run: seq<Action>, more: seq<Action>)
    requires EnvOk(env) && Reach(env, run).Some?
    requires RangesStored(env, Reach(env, run).value.world.table, WholeLog(env))
    requires RunFrom(env, Reach(env, run).value, more).Some?
    ensures RunFrom(env, Reach(env, run).value, more).value.world.table == Reach(env, run).value.world.table
  {
    EveryRun(env, run);
    hide Reach, RunFrom, RangesStored, Within, FetchesWithin, OrderOk, ChannelsOk, InFlightOk;
    WithinWholeLog(env, Reach(env, run).value);
    FetchesWholeLog(env, Reach(env, run).value, more);
    RangeChangesNothing(env, run, more, WholeLog(env));
  }
}
