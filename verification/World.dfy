/** What the workers change outside the process: the table, the dead-letter topic and the committed offsets. */
module World {
  import Domain
  import Errors
  import Messages
  import Store
  import opened Worker

  datatype Letter = Letter(msg: Messages.Msg, reason: Errors.Error)

  datatype World = World(table: Store.Table, dlq: seq<Letter>)

  predicate Applied(r: ServiceResult) {
    r.Stored? || r.applied
  }

  /** A bulk insert is one statement: it is applied to all its rows or to none. */
  function Effect(world: World, ev: Event): World {
    match ev
    case BulkService(txs, r) => if Applied(r) then world.(table := Store.SaveAll(world.table, txs)) else world
    case Service(tx, r) => if Applied(r) then world.(table := Store.SaveOne(world.table, tx)) else world
    case WriteDlq(m, reason, r) =>
      if r == Written || r == WriteFailed(true) then world.(dlq := world.dlq + [Letter(m, reason)]) else world
    case _ => world
  }

  /** Committing messages moves the partition's committed offset past the last of them. */
  function CommittedAfter(committed: nat, ev: Event): nat {
    if ev.Commit? && ev.msgs != [] && (ev.commitResult.Done? || ev.commitResult.applied) then
      ev.msgs[|ev.msgs| - 1].offset + 1
    else committed
  }

  /**
   * Ambiguous failures: a failing call that took effect did what the successful one does, and any other failing call
   * did nothing. Repeating a call that took effect leaves the table as it is, and dead-letters the message once more.
   */
  lemma AmbiguousFailures(
      world: World, tx: Domain.Transaction, txs: seq<Domain.Transaction>, m: Messages.Msg, reason: Errors.Error,
      e: Errors.Error)
    ensures var saved := Effect(world, Service(tx, Stored));
            && Effect(world, Service(tx, Refused(e, true))) == saved == Effect(saved, Service(tx, Stored))
            && Effect(world, Service(tx, Refused(e, false))) == world
            && Store.RowOf(tx) in saved.table
    ensures var saved := Effect(world, BulkService(txs, Stored));
            && Effect(world, BulkService(txs, Refused(e, true))) == saved == Effect(saved, BulkService(txs, Stored))
            && Effect(world, BulkService(txs, Refused(e, false))) == world
            && forall i :: 0 <= i < |txs| ==> Store.RowOf(txs[i]) in saved.table
    ensures var written := Effect(world, WriteDlq(m, reason, Written));
            && Effect(world, WriteDlq(m, reason, WriteFailed(true))) == written
            && Effect(world, WriteDlq(m, reason, WriteFailed(false))) == world
            && Effect(world, WriteDlq(m, reason, NotConfigured)) == world
            && written.dlq == world.dlq + [Letter(m, reason)]
            && Effect(written, WriteDlq(m, reason, Written)).dlq == world.dlq + [Letter(m, reason), Letter(m, reason)]
  {
    forall i | 0 <= i < |txs| ensures Store.RowOf(txs[i]) in Store.SaveAll(world.table, txs) {
      Store.SaveAllRows(world.table, txs, Store.RowOf(txs[i]));
    }
    Store.SaveAllAgain(Store.SaveAll(world.table, txs), txs);
  }

  /** The message reached its destination: its row is in the table, or it is in the dead-letter topic. */
  ghost predicate Safe(cfg: Config, world: World, m: Messages.Msg) {
    || (Valid(cfg, m) && Store.RowOf(TxOf(cfg, m)) in world.table)
    || exists l :: l in world.dlq && l.msg == m
  }

  /** Nothing is ever removed from the table or the dead-letter topic. */
  predicate Grows(world: World, world': World) {
    world.table <= world'.table && world.dlq <= world'.dlq
  }

  lemma EffectGrows(world: World, ev: Event)
    ensures Grows(world, Effect(world, ev))
  {
    match ev
    case BulkService(txs, r) => Store.SaveAllGrows(world.table, txs);
    case _ =>
  }

  lemma SafeStays(cfg: Config, world: World, world': World, m: Messages.Msg)
    requires Grows(world, world') && Safe(cfg, world, m)
    ensures Safe(cfg, world', m)
  {
  }
}
