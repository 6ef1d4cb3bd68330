/** The orchestrator's reactions to L1 that move the chain back: a reorg and a batch revert. */
module Orchestrator {
  import opened Primitives
  import opened ForkchoiceEngine
  import opened BatchTables
  import opened HeldSlot

  /**
   Asks the Engine for the given head and safe blocks. Success means it confirmed exactly those;
   otherwise the local state stays what it was, and the run loop stops.
   */
  method UpdateFcsAfterUnwind(engine: Engine, head: Option<BlockInfo>, safe: Option<BlockInfo>, answer: FcuAnswer)
    returns (ok: bool)
    modifies engine
    ensures ok <==> Confirmed(old(engine.View()), (UpdateFcsChecked(head, safe, None), answer))
    ensures ok ==> engine.View().head == Or(head, old(engine.View()).head)
    ensures ok ==> engine.View().safe == Or(safe, old(engine.View()).safe)
    ensures ok ==> engine.View().finalized == old(engine.View()).finalized
    ensures !ok ==> engine.View() == old(engine.View())
  {
    var r := engine.UpdateChecked(head, safe, None, answer);
    return r.Responded? && r.status == VALID;
  }

  /** `NoSafeBlock`: the query panics inside the transaction, as every stored block is reverted; nothing is kept. */
  datatype Reaction = Done | DatabaseFailed | NoSafeBlock | L2BlockMissing(number: nat) | L2ReadFailed | EngineDidNotFollow

  /** No stored block is left that is not reverted. */
  ghost predicate NothingSafe(blocks: map<BlockKey, L2Row>) {
    forall k :: k in blocks ==> blocks[k].reverted
  }

  /** The head the Engine is asked to move to; the L2 client knows the hash of each block. */
  function HeadOf(head: Option<nat>, hashes: map<nat, Hash>): Option<BlockInfo> {
    if head.Some? && head.value in hashes then Some(BlockInfo(head.value, hashes[head.value])) else None
  }

  /** Reads the new head from the L2 client and has the Engine follow the database. */
  method Follow(engine: Engine, head: Option<nat>, hashes: map<nat, Hash>, revertedReadable: bool,
                safe: Option<BlockInfo>, answer: FcuAnswer)
    returns (r: Reaction)
    modifies engine
    ensures r.L2BlockMissing? <==> head.Some? && head.value !in hashes
    ensures r.L2BlockMissing? ==> r.number == head.value
    ensures r.L2ReadFailed? <==> head.Some? && head.value in hashes && !revertedReadable
    ensures r.Done? <==>
              && (head.Some? ==> head.value in hashes && revertedReadable)
              && (head.Some? || safe.Some? ==>
                    Confirmed(old(engine.View()), (UpdateFcsChecked(HeadOf(head, hashes), safe, None), answer)))
    ensures r.Done? || r.L2BlockMissing? || r.L2ReadFailed? || r.EngineDidNotFollow?
    ensures r.Done? ==> engine.View() == Fcs(Or(HeadOf(head, hashes), old(engine.View()).head),
                                             Or(safe, old(engine.View()).safe), old(engine.View()).finalized)
    ensures !r.Done? ==> engine.View() == old(engine.View())
  {
    if head.Some? {
      if head.value !in hashes {
        return L2BlockMissing(head.value);
      }
      if !revertedReadable {
        return L2ReadFailed;
      }
    }
    if head.Some? || safe.Some? {
      var ok := UpdateFcsAfterUnwind(engine, HeadOf(head, hashes), safe, answer);
      if !ok {
        return EngineDidNotFollow;
      }
    }
    return Done;
  }

  /**
   The transaction of a reorg: tables unwound, held batch revalidated, safe block reported when the
   unwind removed a commitment or undid a revert. When no block is left nothing of it is kept.
   */
  method UnwindTables(driver: DerivationDriver, table: BatchTable, ancestor: nat)
    returns (kept: bool, verdict: Verdict, safe: Option<BlockInfo>)
    requires !driver.scheduled
    modifies driver, table
    ensures !driver.scheduled
    ensures !kept <==> !Untouched(old(table.rows), ancestor) && NothingSafe(Unwound(old(table.View()), ancestor).blocks)
    ensures !kept ==> table.View() == old(table.View()) && driver.View() == old(driver.View()) && safe.None? && verdict == NoHeldBatch
    ensures kept ==> table.blocks == Unwound(old(table.View()), ancestor).blocks
    ensures kept && verdict != FinalizationReverted ==> table.rows == UnwindRows(old(table.rows), ancestor)
    ensures kept && verdict == FinalizationReverted ==>
              old(driver.pending).Some? &&
              table.rows == Release(UnwindRows(old(table.rows), ancestor), old(driver.pending).value.batch.info.hash)
    ensures kept ==> (safe.Some? <==> !Untouched(old(table.rows), ancestor))
    ensures safe.Some? ==> LatestSafe(table.blocks, safe.value)
    ensures kept && Untouched(old(table.rows), ancestor) ==> table.blocks == old(table.blocks)
    ensures kept ==> (driver.pending.Some? <==> verdict == Survived)
    ensures verdict == Survived ==> old(driver.pending).Some? && driver.pending.value.batch == old(driver.pending).value.batch
    ensures kept && old(driver.pending).Some? && Ordered(old(table.rows)) ==>
              (verdict == Survived <==> RowSurvives(old(driver.pending).value.batch, old(table.rows), ancestor))
  {
    var saved, held := Tables(table.rows, table.blocks), driver.pending;
    var moved;
    safe := None;
    verdict, moved := driver.UnwindAndRevalidate(table, ancestor);
    if moved {
      safe := table.GetLatestSafe();
      if safe.None? {
        table.rows, table.blocks := saved.rows, saved.blocks;
        driver.pending, driver.scheduled := held, false;
        return false, NoHeldBatch, None;
      }
    }
    kept := true;
  }

  /**
   An L1 reorg: the scheduled attempt is cancelled, the tables are unwound in one transaction, the
   held batch is kept exactly when it survives, the Engine follows the database, and a surviving
   batch is scheduled for a fresh attempt. The database reports a safe block when the unwind
   removed a commitment or undid a revert, and a head when it removed an executed L1 message.
   Success leaves the Engine's safe block the database's, reported or not, if it was before.
   */
  method HandleL1Reorg(engine: Engine, driver: DerivationDriver, table: BatchTable, ancestor: nat, committed: bool,
                       head: Option<nat>, hashes: map<nat, Hash>, revertedReadable: bool, answer: FcuAnswer)
    returns (r: Reaction, verdict: Verdict, safe: Option<BlockInfo>)
    modifies engine, driver, table
    ensures r.Done? && (old(LatestSafe(table.blocks, engine.View().safe)) || !Untouched(old(table.rows), ancestor)) ==>
              LatestSafe(table.blocks, engine.View().safe)
    ensures committed && !r.NoSafeBlock? ==> (safe.Some? <==> !Untouched(old(table.rows), ancestor))
    ensures safe.Some? ==> LatestSafe(table.blocks, safe.value)
    ensures r.NoSafeBlock? <==>
              committed && !Untouched(old(table.rows), ancestor) && NothingSafe(Unwound(old(table.View()), ancestor).blocks)
    ensures committed && !r.NoSafeBlock? ==>
              && table.blocks == Unwound(old(table.View()), ancestor).blocks
              && (verdict != FinalizationReverted || old(driver.pending).None? ==>
                    table.rows == UnwindRows(old(table.rows), ancestor))
              && (r.L2BlockMissing? <==> head.Some? && head.value !in hashes)
              && (r.L2BlockMissing? ==> r.number == head.value)
              && (r.L2ReadFailed? <==> head.Some? && head.value in hashes && !revertedReadable)
    ensures r.DatabaseFailed? <==> !committed
    ensures !r.NoSafeBlock? ==>
              (r.Done? <==>
                && committed && (head.Some? ==> head.value in hashes && revertedReadable)
                && (head.Some? || safe.Some? ==>
                      Confirmed(old(engine.View()), (UpdateFcsChecked(HeadOf(head, hashes), safe, None), answer))))
    ensures r.Done? ==> engine.View() == Fcs(Or(HeadOf(head, hashes), old(engine.View()).head),
                                             Or(safe, old(engine.View()).safe), old(engine.View()).finalized)
    ensures !r.Done? ==> engine.View() == old(engine.View())
    ensures !committed || r.NoSafeBlock? ==> table.View() == old(table.View()) && driver.View() == Cancelled(old(driver.View()))
    ensures !r.Done? ==> !driver.scheduled
    ensures r.Done? ==> (driver.scheduled <==> verdict == Survived)
    ensures committed && !r.NoSafeBlock? ==> (driver.pending.Some? <==> verdict == Survived)
    ensures verdict == Survived ==> old(driver.pending).Some? && driver.pending.value.batch == old(driver.pending).value.batch
    ensures committed && !r.NoSafeBlock? && old(driver.pending).Some? && Ordered(old(table.rows)) ==>
              (verdict == Survived <==> RowSurvives(old(driver.pending).value.batch, old(table.rows), ancestor))
  {
    driver.CancelAttempt();
    safe := None;
    if !committed {
      return DatabaseFailed, NoHeldBatch, None;
    }
    var kept;
    kept, verdict, safe := UnwindTables(driver, table, ancestor);
    if !kept {
      return NoSafeBlock, verdict, None;
    }
    r := Follow(engine, head, hashes, revertedReadable, safe, answer);
    if r.Done? && verdict == Survived {
      driver.ScheduleFreshReconciliation();
    }
  }

  /**
   A batch revert: the rows in the range and their blocks become reverted. When synced, success
   means the Engine's safe block is the highest stored block that is left.
   */
  method HandleBatchRevert(engine: Engine, table: BatchTable, first: nat, last: nat, blockNumber: nat, committed: bool,
                           synced: bool, answer: FcuAnswer)
    returns (r: Reaction, safe: Option<BlockInfo>)
    modifies engine, table
    ensures committed && !r.NoSafeBlock? ==> table.View() == RangeReverted(old(table.View()), first, last, blockNumber)
    ensures old(Consistent(table.View())) ==> Consistent(table.View())
    ensures r.DatabaseFailed? <==> !committed
    ensures r.NoSafeBlock? <==>
              committed && NothingSafe(RangeReverted(old(table.View()), first, last, blockNumber).blocks)
    ensures r.Done? || r.DatabaseFailed? || r.NoSafeBlock? || r.EngineDidNotFollow?
    ensures !committed || r.NoSafeBlock? ==> table.View() == old(table.View())
    ensures safe.Some? ==> LatestSafe(table.blocks, safe.value)
    ensures r.Done? && synced ==>
              LatestSafe(table.blocks, engine.View().safe) && engine.View() == old(engine.View()).(safe := engine.View().safe)
    ensures r.Done? && synced ==> safe == Some(engine.View().safe)
    ensures !(r.Done? && synced) ==> engine.View() == old(engine.View())
    ensures committed && !r.NoSafeBlock? ==>
              && safe.Some?
              && (r.Done? <==> !synced || Confirmed(old(engine.View()), (UpdateFcsChecked(None, safe, None), answer)))
  {
    safe := None;
    if !committed {
      return DatabaseFailed, None;
    }
    var saved := Tables(table.rows, table.blocks);
    table.Revert(first, last, blockNumber);
    safe := table.GetLatestSafe();
    if safe.None? {
      table.rows, table.blocks := saved.rows, saved.blocks;
      return NoSafeBlock, None;
    }
    if synced {
      var ok := UpdateFcsAfterUnwind(engine, None, safe, answer);
      if !ok {
        return EngineDidNotFollow, safe;
      }
    }
    return Done, safe;
  }
}
