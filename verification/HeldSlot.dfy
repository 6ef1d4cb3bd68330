/**
 The derivation driver: it owns one derived batch and its retry timer, runs reconciliation
 attempts on it and decides after an L1 unwind whether the batch is still valid.
 */
module HeldSlot {
  import opened Primitives
  import opened ForkchoiceEngine
  import opened BatchTables
  import opened Reconciliation

  const INITIAL_HOLD_BACKOFF_MS: nat := 2_000
  const MAX_HOLD_BACKOFF_MS: nat := 30_000

  /** The wait before the next attempt, in milliseconds. */
  function HoldBackoff(attempt: nat): nat {
    Min(Min(INITIAL_HOLD_BACKOFF_MS * Pow2(Min(Pred(attempt), 63)), U64_MAX), MAX_HOLD_BACKOFF_MS)
  }

  datatype Pending = Pending(batch: Batch, attempts: nat, lastHold: Option<Failure>, backoff: Option<nat>)

  /** The slot and whether an attempt is scheduled. */
  datatype Slot = Slot(pending: Option<Pending>, scheduled: bool)

  const EMPTY_SLOT := Slot(None, false)

  // ---- The slot ----

  function HoldIn(batch: Batch): Slot {
    Slot(Some(Pending(batch, 0, None, None)), true)
  }

  /** The slot after an attempt on the held batch ended. */
  function AfterAttempt(slot: Slot, attempt: Attempt): Slot
    requires slot.pending.Some?
  {
    var p := slot.pending.value.(attempts := SaturatingAdd(slot.pending.value.attempts, 1), backoff := None);
    match attempt
    case Completed(_) => EMPTY_SLOT
    case Failed(Hold(call, status)) =>
      Slot(Some(p.(lastHold := Some(Hold(call, status)), backoff := Some(HoldBackoff(p.attempts)))), true)
    case Failed(Fatal(_)) => Slot(Some(p), false)
  }

  function Cancelled(slot: Slot): Slot {
    slot.(scheduled := false)
  }

  function Rescheduled(slot: Slot): Slot {
    if slot.pending.None? then slot
    else Slot(Some(slot.pending.value.(backoff := None)), true)
  }

  // ---- Surviving an unwind ----

  datatype Verdict = NoHeldBatch | Survived | RowGone | HashChanged | CommitReverted | FinalizationReverted

  /** The decision on the held batch, from the row stored under its index after the unwind. */
  function Revalidate(batch: Batch, rows: map<Hash, Row>, stored: Option<Hash>, ancestor: nat): Verdict
    requires stored.Some? ==> stored.value in rows
  {
    if stored.None? then RowGone
    else if stored.value != batch.info.hash then HashChanged
    else if rows[stored.value].blockNumber > ancestor then CommitReverted
    else if batch.target == BatchStatus.Finalized &&
            (rows[stored.value].finalizedAt.None? || rows[stored.value].finalizedAt.value > ancestor)
    then FinalizationReverted
    else Survived
  }

  /** Some row the query by index may return leads to this verdict. */
  ghost predicate Decides(batch: Batch, rows: map<Hash, Row>, ancestor: nat, verdict: Verdict) {
    exists stored :: Finds(rows, batch.info.index, stored) && verdict == Revalidate(batch, rows, stored, ancestor)
  }

  /** The row of a batch whose finalization was undone becomes available for catch-up again. */
  function Release(rows: map<Hash, Row>, h: Hash): map<Hash, Row> {
    if h in rows && rows[h].status == BatchStatus.Processing
    then rows[h := rows[h].(status := BatchStatus.Committed)]
    else rows
  }

  /** The part of the batch's own row that decides its survival, before the unwind. */
  predicate RowSurvives(batch: Batch, rows: map<Hash, Row>, ancestor: nat) {
    var h := batch.info.hash;
    && h in rows && rows[h].index == batch.info.index && rows[h].blockNumber <= ancestor
    && (rows[h].revertedAt.Some? ==> rows[h].revertedAt.value > ancestor)
    && (batch.target == BatchStatus.Finalized ==> rows[h].finalizedAt.Some? && rows[h].finalizedAt.value <= ancestor)
  }

  /**
   The held batch survives an unwind exactly when its own row was committed at or below the
   ancestor, is not reverted at or below it and, for a finalized target, was finalized at or
   below it. L1 commits an index again only after reverting it.
   */
  lemma SurvivalIsExact(batch: Batch, rows: map<Hash, Row>, stored: Option<Hash>, ancestor: nat)
    requires Ordered(rows) && Finds(UnwindRows(rows, ancestor), batch.info.index, stored)
    ensures Revalidate(batch, UnwindRows(rows, ancestor), stored, ancestor) == Survived <==>
            RowSurvives(batch, rows, ancestor)
  {
    var after, h := UnwindRows(rows, ancestor), batch.info.hash;
    UnwindKeepsOrder(rows, ancestor);
    OrderedIsLiveUnique(after);
    assert Live(after, h, batch.info.index) <==>
      h in rows && rows[h].index == batch.info.index && rows[h].blockNumber <= ancestor &&
      (rows[h].revertedAt.Some? ==> rows[h].revertedAt.value > ancestor);
    if Live(after, h, batch.info.index) {
      assert stored == Some(h);
    }
  }

  /**
   Why a batch was dropped, on rows in L1 order: the index has no live row left, another batch has it,
   or the batch is still there and only its finalization was undone. That its own commitment is above
   the ancestor is never the answer: the unwind has removed such a row.
   */
  lemma VerdictIsExact(batch: Batch, rows: map<Hash, Row>, stored: Option<Hash>, ancestor: nat)
    requires Ordered(rows) && Finds(UnwindRows(rows, ancestor), batch.info.index, stored)
    ensures var after, h, i := UnwindRows(rows, ancestor), batch.info.hash, batch.info.index;
            var verdict := Revalidate(batch, after, stored, ancestor);
            && (verdict == RowGone <==> forall g :: !Live(after, g, i))
            && (verdict == HashChanged <==> exists g :: g != h && Live(after, g, i))
            && (verdict == FinalizationReverted <==>
                  Live(after, h, i) && batch.target == BatchStatus.Finalized && after[h].finalizedAt.None?)
            && verdict != CommitReverted && verdict != NoHeldBatch
  {
    var after := UnwindRows(rows, ancestor);
    UnwindKeepsOrder(rows, ancestor);
    OrderedIsLiveUnique(after);
    if stored.Some? {
      assert Live(after, stored.value, batch.info.index);
      UnwoundRow(rows, ancestor, stored.value);
    }
  }

  /** A batch that is committed again has to be finalized again: until then no finalized target of it survives. */
  lemma RecommitUnfinalizes(rows: map<Hash, Row>, batch: Batch, blockNumber: nat, ancestor: nat)
    requires batch.info.hash in rows
    ensures var after := Changed(rows, Commit(batch.info.hash, batch.info.index, blockNumber));
            && after[batch.info.hash] == rows[batch.info.hash].(index := batch.info.index, blockNumber := blockNumber, finalizedAt := None)
            && (batch.target == BatchStatus.Finalized ==> !RowSurvives(batch, after, ancestor))
            && (batch.target != BatchStatus.Finalized && rows[batch.info.hash].revertedAt.None? ==>
                  (RowSurvives(batch, after, ancestor) <==> blockNumber <= ancestor))
  {
  }

  // ---- The driver in place ----

  class DerivationDriver {
    var pending: Option<Pending>
    var scheduled: bool

    ghost function View(): Slot
      reads this
    {
      Slot(pending, scheduled)
    }

    constructor ()
      ensures View() == EMPTY_SLOT
    {
      pending, scheduled := None, false;
    }

    method HoldBatch(batch: Batch)
      requires pending.None?
      modifies this
      ensures View() == HoldIn(batch)
    {
      pending := Some(Pending(batch, 0, None, None));
      ScheduleImmediate();
    }

    method ScheduleImmediate()
      modifies this
      ensures scheduled
      ensures pending == if old(pending).None? then None else Some(old(pending).value.(backoff := None))
    {
      if pending.Some? {
        pending := Some(pending.value.(backoff := None));
      }
      scheduled := true;
    }

    method RunAttempt(engine: Engine, db: Database, w: World) returns (attempt: Attempt)
      requires pending.Some?
      modifies this, engine, db
      ensures var r := Reconcile(old(pending).value.batch, old(engine.View()), w);
              attempt == r.1 && engine.View() == r.0.fcs
      ensures View() == AfterAttempt(old(View()), attempt)
      ensures attempt.Completed? <==> pending.None?
      ensures scheduled <==> attempt.Failed? && attempt.failure.Hold?
      ensures scheduled ==> pending.value.batch == old(pending).value.batch && pending.value.backoff.Some?
      ensures db.outcomes == old(db.outcomes) + if attempt.Completed? then [attempt.outcome] else []
    {
      scheduled := false;
      var held := pending.value.(attempts := SaturatingAdd(pending.value.attempts, 1), backoff := None);
      pending := Some(held);
      attempt := ReconcileAndConsolidate(engine, db, held.batch, w);
      match attempt {
        case Completed(_) =>
          pending := None;
        case Failed(Hold(call, status)) =>
          pending := Some(held.(lastHold := Some(Hold(call, status)), backoff := Some(HoldBackoff(held.attempts))));
          scheduled := true;
        case Failed(Fatal(_)) =>
      }
    }

    method CancelAttempt()
      modifies this
      ensures View() == Cancelled(old(View()))
    {
      scheduled := false;
    }

    method ScheduleFreshReconciliation()
      modifies this
      ensures View() == Rescheduled(old(View()))
    {
      if pending.Some? {
        ScheduleImmediate();
      }
    }

    /** Unwinds the table and drops the held batch exactly when it did not survive. */
    method UnwindAndRevalidate(table: BatchTable, ancestor: nat) returns (verdict: Verdict, moved: bool)
      modifies this, table
      ensures old(pending).None? ==> verdict == NoHeldBatch && View() == old(View())
      ensures old(pending).Some? ==>
                Decides(old(pending).value.batch, UnwindRows(old(table.rows), ancestor), ancestor, verdict)
      ensures old(pending).Some? && Ordered(old(table.rows)) ==>
                (verdict == Survived <==> RowSurvives(old(pending).value.batch, old(table.rows), ancestor))
      ensures old(pending).Some? ==> View() == if verdict == Survived then old(View()) else EMPTY_SLOT
      ensures table.rows == if verdict == FinalizationReverted
                            then Release(UnwindRows(old(table.rows), ancestor), old(pending).value.batch.info.hash)
                            else UnwindRows(old(table.rows), ancestor)
      ensures verdict == FinalizationReverted ==> old(pending).Some?
      ensures !moved <==> Untouched(old(table.rows), ancestor)
      ensures table.blocks == Unwound(old(table.View()), ancestor).blocks
      ensures !moved ==> table.blocks == old(table.blocks)
    {
      moved := table.Unwind(ancestor);
      if pending.None? {
        verdict := NoHeldBatch;
        return;
      }
      verdict := RevalidateHeld(table, ancestor, old(table.rows));
    }

    /** The held batch against the table that was just unwound from `before`. */
    method RevalidateHeld(table: BatchTable, ancestor: nat, ghost before: map<Hash, Row>) returns (verdict: Verdict)
      requires pending.Some? && table.rows == UnwindRows(before, ancestor)
      modifies this, table`rows
      ensures Decides(old(pending).value.batch, old(table.rows), ancestor, verdict)
      ensures Ordered(before) ==> (verdict == Survived <==> RowSurvives(old(pending).value.batch, before, ancestor))
      ensures View() == if verdict == Survived then old(View()) else EMPTY_SLOT
      ensures table.rows == if verdict == FinalizationReverted
                            then Release(old(table.rows), old(pending).value.batch.info.hash) else old(table.rows)
      ensures verdict == FinalizationReverted ==>
                var h := old(pending).value.batch.info.hash;
                && h in table.rows && table.rows[h].status != BatchStatus.Processing
                && (old(table.rows)[h].status != BatchStatus.Processing ==> table.rows == old(table.rows))
                && (old(table.rows)[h].status == BatchStatus.Processing ==> table.rows[h].status == BatchStatus.Committed)
                && table.rows == old(table.rows)[h := old(table.rows)[h].(status := table.rows[h].status)]
    {
      var batch := pending.value.batch;
      var stored := table.GetByIndex(batch.info.index);
      if Ordered(before) {
        SurvivalIsExact(batch, before, stored, ancestor);
      }
      verdict := Revalidate(batch, table.rows, stored, ancestor);
      if verdict == FinalizationReverted {
        table.rows := Release(table.rows, batch.info.hash);
      }
      if verdict != Survived {
        pending, scheduled := None, false;
      }
    }
  }

  // ---- Retries ----

  /**
   A Hold keeps the batch, remembers what the Engine said and arms the next attempt after the wait
   that this attempt's number gives: two seconds, doubled each time, at most thirty. A Fatal keeps
   the batch and arms nothing; a completed attempt empties the slot.
   */
  lemma AttemptArmsRetry(slot: Slot, attempt: Attempt)
    requires slot.pending.Some?
    ensures var before, after := slot.pending.value, AfterAttempt(slot, attempt);
            && (attempt.Completed? <==> after.pending.None?)
            && (after.scheduled <==> attempt.Failed? && attempt.failure.Hold?)
            && (attempt.Failed? ==> after.pending.value.batch == before.batch)
            && (attempt.Failed? && before.attempts < U64_MAX ==> after.pending.value.attempts == before.attempts + 1)
            && (attempt.Failed? && attempt.failure.Fatal? ==> after.pending.value.backoff == None)
            && (attempt.Failed? && attempt.failure.Hold? ==>
                  && after.pending.value.lastHold == Some(attempt.failure)
                  && after.pending.value.backoff ==
                     Some(if before.attempts < 4 then [2_000, 4_000, 8_000, 16_000][before.attempts] else 30_000))
  {
    var n := Min(slot.pending.value.attempts, 63);
    if n < 4 {
      assert Pow2(0) == 1 && Pow2(1) == 2 && Pow2(2) == 4 && Pow2(3) == 8;
    } else {
      Pow2Grows(4, n);
      assert Pow2(4) == 16;
    }
  }

  /** The slot after a batch came in and its attempts failed one after the other. */
  function AfterFailures(batch: Batch, failures: seq<Failure>): (r: Slot)
    ensures r.pending.Some?
  {
    if failures == [] then HoldIn(batch)
    else AfterAttempt(AfterFailures(batch, failures[..|failures| - 1]), Failed(failures[|failures| - 1]))
  }

  /**
   A batch comes in with an immediate attempt; each time it is held it is tried again, after 2, 4, 8, 16
   and then 30 seconds.
   */
  lemma {:induction false} HoldsInARow(batch: Batch, failures: seq<Failure>)
    requires forall f :: f in failures ==> f.Hold?
    requires |failures| <= U64_MAX
    ensures var r, n := AfterFailures(batch, failures), |failures|;
            && r.scheduled && r.pending.value.batch == batch && r.pending.value.attempts == n
            && r.pending.value.backoff ==
               (if n == 0 then None else Some(if n <= 4 then [2_000, 4_000, 8_000, 16_000][n - 1] else 30_000))
    decreases |failures|
  {
    if failures != [] {
      var front, last := failures[..|failures| - 1], failures[|failures| - 1];
      assert forall f :: f in front ==> f in failures;
      HoldsInARow(batch, front);
      AttemptArmsRetry(AfterFailures(batch, front), Failed(last));
    }
  }

  // ---- Backoff ----

  /** The wait never shrinks from one attempt to the next and stays between two and thirty seconds. */
  lemma BackoffGrows(attempt: nat)
    ensures INITIAL_HOLD_BACKOFF_MS <= HoldBackoff(attempt) <= HoldBackoff(attempt + 1) <= MAX_HOLD_BACKOFF_MS
    ensures 5 <= attempt ==> HoldBackoff(attempt) == MAX_HOLD_BACKOFF_MS
  {
    var n := Min(Pred(attempt), 63);
    Pow2Grows(0, n);
    Pow2Grows(n, Min(Pred(attempt + 1), 63));
    if 5 <= attempt {
      Pow2Grows(4, n);
      assert Pow2(4) == 16;
    }
  }

  lemma {:induction false} Pow2Grows(m: nat, n: nat)
    requires m <= n
    ensures 1 <= Pow2(m) <= Pow2(n)
  {
    if m < n {
      Pow2Grows(m, n - 1);
    } else if m > 0 {
      Pow2Grows(m - 1, m - 1);
    }
  }
}
