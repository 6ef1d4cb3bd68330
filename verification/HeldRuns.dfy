/** The held slot over whole runs of the orchestrator's loop. */
module HeldRuns {
  import opened Primitives
  import opened ForkchoiceEngine
  import opened Consolidation
  import opened Reconciliation
  import opened ReconciliationProofs
  import opened HeldSlot
  import opened BatchTables

  /** How an accepted batch left the slot. */
  datatype Resolution = Written(batch: Batch, outcome: BatchOutcome) | Dropped(batch: Batch)

  /**
   The part of the node a held batch meets. `accepted` and `log` are history: the batches taken
   from the pipeline and how each one left the slot. `outcomes` and `rows` are what the database
   holds.
   */
  datatype Node = Node(
    slot: Slot,
    fcs: Fcs,
    outcomes: seq<BatchOutcome>,
    rows: map<Hash, Row>,
    accepted: seq<Batch>,
    log: seq<Resolution>,
    halted: bool)

  datatype Event =
    | Accept(batch: Batch)
    | TryAttempt(world: World)
    | CancelAttempt
    | Reschedule
    | Unwind(ancestor: nat, stored: Option<Hash>)
    | TableChange(change: Change)
    | EngineCalls(calls: seq<(Op, FcuAnswer)>)

  /** The guards of the run loop; a fatal attempt ends the run. */
  ghost predicate Enabled(n: Node, e: Event) {
    && !n.halted
    && match e
       case Accept(_) => n.slot.pending.None?
       case TryAttempt(_) => n.slot.scheduled
       case Unwind(ancestor, stored) =>
         n.slot.pending.Some? ==>
           Finds(UnwindRows(n.rows, ancestor), n.slot.pending.value.batch.info.index, stored)
       case _ => true
  }

  function AttemptOn(n: Node, w: World): (Progress, Attempt)
    requires n.slot.pending.Some?
  {
    Reconcile(n.slot.pending.value.batch, n.fcs, w)
  }

  /** The node after the attempt on its held batch ended. */
  function Finish(n: Node, fcs: Fcs, attempt: Attempt): Node
    requires n.slot.pending.Some?
  {
    var n1 := n.(slot := AfterAttempt(n.slot, attempt), fcs := fcs);
    match attempt
    case Completed(outcome) =>
      n1.(outcomes := n.outcomes + [outcome], rows := Changed(n.rows, SetStatus(outcome.info.hash, outcome.target)),
          log := n.log + [Written(n.slot.pending.value.batch, outcome)])
    case Failed(Hold(_, _)) => n1
    case Failed(Fatal(_)) => n1.(halted := true)
  }

  function AfterUnwind(n: Node, ancestor: nat, stored: Option<Hash>): Node
    requires Enabled(n, Unwind(ancestor, stored))
  {
    var n1 := n.(rows := UnwindRows(n.rows, ancestor));
    if n.slot.pending.None? then n1 else
    var batch := n.slot.pending.value.batch;
    var verdict := Revalidate(batch, n1.rows, stored, ancestor);
    if verdict == Survived then n1
    else n1.(slot := EMPTY_SLOT, log := n.log + [Dropped(batch)],
             rows := if verdict == FinalizationReverted then Release(n1.rows, batch.info.hash) else n1.rows)
  }

  function Apply(n: Node, e: Event): Node
    requires Enabled(n, e)
  {
    match e
    case Accept(batch) => n.(slot := HoldIn(batch), accepted := n.accepted + [batch])
    case TryAttempt(w) =>
      // Without a held batch the attempt panics.
      if n.slot.pending.None? then n.(halted := true) else
      var (p, attempt) := AttemptOn(n, w);
      Finish(n, p.fcs, attempt)
    case CancelAttempt => n.(slot := Cancelled(n.slot))
    case Reschedule => n.(slot := Rescheduled(n.slot))
    case Unwind(ancestor, stored) => AfterUnwind(n, ancestor, stored)
    case TableChange(c) => n.(rows := Changed(n.rows, c))
    case EngineCalls(calls) => n.(fcs := Run(n.fcs, calls))
  }

  // ---- The invariant ----

  function HeldBatches(slot: Slot): seq<Batch> {
    if slot.pending.Some? then [slot.pending.value.batch] else []
  }

  function Resolved(log: seq<Resolution>): seq<Batch> {
    seq(|log|, i requires 0 <= i < |log| => log[i].batch)
  }

  function WrittenOutcomes(log: seq<Resolution>): seq<BatchOutcome> {
    if log == [] then []
    else WrittenOutcomes(log[..|log| - 1]) +
         if log[|log| - 1].Written? then [log[|log| - 1].outcome] else []
  }

  /** One block per derived attribute, in order, with its number and L1 messages, under the batch's own identity. */
  ghost predicate Faithful(batch: Batch, outcome: BatchOutcome) {
    && outcome.info == batch.info && outcome.target == batch.target && outcome.skipped == batch.skipped
    && |outcome.blocks| == |batch.attrs|
    && forall i :: 0 <= i < |outcome.blocks| ==> Describes(batch.attrs[i], outcome.blocks[i])
  }

  ghost predicate Safe(n: Node) {
    && WellFormed(n.fcs)
    && (n.slot.scheduled ==> n.slot.pending.Some?)
    && n.accepted == Resolved(n.log) + HeldBatches(n.slot)
    && n.outcomes == WrittenOutcomes(n.log)
    && (forall i :: 0 <= i < |n.log| && n.log[i].Written? ==> Faithful(n.log[i].batch, n.log[i].outcome))
    && (forall i :: 0 <= i < |n.accepted| ==> Ascending(n.accepted[i].attrs))
    && Ordered(n.rows)
  }

  /**
   Derived batches have increasing positive block numbers, the L2 provider answers by number, and
   L1 commits a batch index again only after reverting it.
   */
  ghost predicate LegalEvent(n: Node, e: Event) {
    match e
    case Accept(batch) => Ascending(batch.attrs)
    case TryAttempt(w) => Numbered(w.chain)
    case TableChange(c) => InL1Order(n.rows, c)
    case _ => true
  }

  /** Every event meets the guards of the loop and comes from a lawful environment. */
  ghost predicate LegalRun(n: Node, events: seq<Event>)
    decreases |events|
  {
    events == [] ||
    (Enabled(n, events[0]) && LegalEvent(n, events[0]) && LegalRun(Apply(n, events[0]), events[1..]))
  }

  lemma LogGrows(log: seq<Resolution>, r: Resolution)
    ensures Resolved(log + [r]) == Resolved(log) + [r.batch]
    ensures WrittenOutcomes(log + [r]) == WrittenOutcomes(log) + if r.Written? then [r.outcome] else []
  {
    assert (log + [r])[..|log|] == log;
  }

  lemma HeldIsAscending(n: Node)
    requires Safe(n) && n.slot.pending.Some?
    ensures Ascending(n.slot.pending.value.batch.attrs)
  {
    assert n.accepted[|n.accepted| - 1] == n.slot.pending.value.batch;
  }

  /**
   An attempt: Hold and Fatal keep the same batch and write nothing; Completed frees the slot
   after exactly one write, which is faithful to the held batch.
   */
  lemma AttemptIsSafe(n: Node, w: World)
    requires Safe(n) && Enabled(n, TryAttempt(w)) && Numbered(w.chain)
    ensures var n' := Apply(n, TryAttempt(w));
            var attempt := AttemptOn(n, w).1;
            && Safe(n') && n'.accepted == n.accepted
            && (attempt.Failed? ==> n'.outcomes == n.outcomes && HeldBatches(n'.slot) == HeldBatches(n.slot))
            && (attempt.Completed? ==> n'.outcomes == n.outcomes + [attempt.outcome] && n'.slot == EMPTY_SLOT &&
                                       Faithful(n.slot.pending.value.batch, attempt.outcome))
            && (attempt.Failed? ==> n'.rows == n.rows)
            && (attempt.Completed? ==>
                  var h := n.slot.pending.value.batch.info.hash;
                  n'.rows == if h in n.rows then n.rows[h := n.rows[h].(status := n.slot.pending.value.batch.target)] else n.rows)
            && (n'.halted <==> attempt.Failed? && attempt.failure.Fatal?)
  {
    HeldIsAscending(n);
    WrittenIsFaithful(n.slot.pending.value.batch, n.fcs, w);
    var (p, attempt) := AttemptOn(n, w);
    FinishIsSafe(n, p.fcs, attempt);
    FinishSetsStatus(n, p.fcs, attempt);
  }

  lemma WrittenIsFaithful(batch: Batch, fcs: Fcs, w: World)
    requires Legal(batch, fcs, w)
    ensures var (p, attempt) := Reconcile(batch, fcs, w);
            WellFormed(p.fcs) && (attempt.Completed? ==> Faithful(batch, attempt.outcome))
  {
    NoInternalRejection(batch, fcs, w);
    if Reconcile(batch, fcs, w).1.Completed? {
      CompletedParts(batch, fcs, w);
      CompletedIsFaithful(batch, fcs, w);
    }
  }

  /** A completed batch's row gets the target status; no other attempt touches a row. */
  lemma FinishSetsStatus(n: Node, fcs: Fcs, attempt: Attempt)
    requires n.slot.pending.Some? && (attempt.Completed? ==> Faithful(n.slot.pending.value.batch, attempt.outcome))
    ensures var n', h := Finish(n, fcs, attempt), n.slot.pending.value.batch.info.hash;
            && (attempt.Failed? ==> n'.rows == n.rows)
            && (attempt.Completed? ==>
                  n'.rows == if h in n.rows then n.rows[h := n.rows[h].(status := n.slot.pending.value.batch.target)] else n.rows)
  {
  }

  lemma FinishIsSafe(n: Node, fcs: Fcs, attempt: Attempt)
    requires Safe(n) && n.slot.pending.Some? && WellFormed(fcs) && !n.halted
    requires attempt.Completed? ==> Faithful(n.slot.pending.value.batch, attempt.outcome)
    ensures var n' := Finish(n, fcs, attempt);
            && Safe(n') && n'.accepted == n.accepted
            && (attempt.Failed? ==> n'.outcomes == n.outcomes && HeldBatches(n'.slot) == HeldBatches(n.slot))
            && (attempt.Completed? ==> n'.outcomes == n.outcomes + [attempt.outcome] && n'.slot == EMPTY_SLOT)
            && (n'.halted <==> attempt.Failed? && attempt.failure.Fatal?)
  {
    if attempt.Completed? {
      LogGrows(n.log, Written(n.slot.pending.value.batch, attempt.outcome));
      StatusKeepsOrder(n.rows, Changed(n.rows, SetStatus(attempt.outcome.info.hash, attempt.outcome.target)));
    }
  }

  /** The status of a row decides nothing here. */
  lemma StatusKeepsOrder(rows: map<Hash, Row>, after: map<Hash, Row>)
    requires Ordered(rows) && after.Keys == rows.Keys
    requires forall h :: h in rows ==> after[h] == rows[h].(status := after[h].status)
    ensures Ordered(after)
  {
    forall g, h | g in after && h in after && g != h && after[g].index == after[h].index
      ensures RevertedBefore(after[g], after[h]) || RevertedBefore(after[h], after[g])
    {
      assert RevertedBefore(rows[g], rows[h]) || RevertedBefore(rows[h], rows[g]);
    }
  }

  lemma ReleaseKeepsOrder(rows: map<Hash, Row>, h: Hash)
    requires Ordered(rows)
    ensures Ordered(Release(rows, h))
  {
    StatusKeepsOrder(rows, Release(rows, h));
  }

  /** Other rows in L1 order, the same slot. */
  lemma RowsAreSafe(n: Node, rows: map<Hash, Row>)
    requires Safe(n) && Ordered(rows)
    ensures Safe(n.(rows := rows))
  {
  }

  lemma DropIsSafe(n: Node)
    requires Safe(n) && n.slot.pending.Some?
    ensures Safe(n.(slot := EMPTY_SLOT, log := n.log + [Dropped(n.slot.pending.value.batch)]))
  {
    LogGrows(n.log, Dropped(n.slot.pending.value.batch));
  }

  /** An unwind drops the held batch exactly when its own row did not survive, and writes nothing. */
  lemma UnwindIsExact(n: Node, ancestor: nat, stored: Option<Hash>)
    requires Ordered(n.rows) && Enabled(n, Unwind(ancestor, stored))
    ensures var n' := AfterUnwind(n, ancestor, stored);
            && n'.accepted == n.accepted && n'.outcomes == n.outcomes
            && (n.slot.pending.Some? ==>
                  var batch := n.slot.pending.value.batch;
                  n'.slot == if RowSurvives(batch, n.rows, ancestor) then n.slot else EMPTY_SLOT)
            && (n.slot.pending.None? ==> n'.slot == n.slot && n'.rows == UnwindRows(n.rows, ancestor))
            && (n.slot.pending.Some? ==>
                  var h := n.slot.pending.value.batch.info.hash;
                  var unwound := UnwindRows(n.rows, ancestor);
                  n'.rows == if Live(unwound, h, n.slot.pending.value.batch.info.index) && n'.slot == EMPTY_SLOT &&
                                unwound[h].status == BatchStatus.Processing
                             then unwound[h := unwound[h].(status := BatchStatus.Committed)] else unwound)
  {
    if n.slot.pending.Some? {
      SurvivalIsExact(n.slot.pending.value.batch, n.rows, stored, ancestor);
      VerdictIsExact(n.slot.pending.value.batch, n.rows, stored, ancestor);
    }
  }

  lemma UnwindCutsRows(n: Node, ancestor: nat, stored: Option<Hash>)
    requires Ordered(n.rows) && Enabled(n, Unwind(ancestor, stored))
    ensures var after := AfterUnwind(n, ancestor, stored).rows;
            && (forall h :: h in after ==> Within(after[h], ancestor))
            && (forall h :: h in n.rows && Within(n.rows[h], ancestor) ==>
                  h in after && after[h] == n.rows[h].(status := after[h].status))
  {
    var rows, after := UnwindRows(n.rows, ancestor), AfterUnwind(n, ancestor, stored).rows;
    UnwindIsExact(n, ancestor, stored);
    assert after.Keys == rows.Keys && forall h :: h in rows ==> after[h] == rows[h].(status := after[h].status);
    RestatusedWithin(n.rows, rows, after, ancestor);
  }

  lemma RestatusedWithin(before: map<Hash, Row>, rows: map<Hash, Row>, after: map<Hash, Row>, ancestor: nat)
    requires rows == UnwindRows(before, ancestor) && after.Keys == rows.Keys
    requires forall h :: h in rows ==> after[h] == rows[h].(status := after[h].status)
    ensures forall h :: h in after ==> Within(after[h], ancestor)
    ensures forall h :: h in before && Within(before[h], ancestor) ==>
              h in after && after[h] == before[h].(status := after[h].status)
  {
  }

  lemma UnwindIsSafe(n: Node, ancestor: nat, stored: Option<Hash>)
    requires Safe(n) && Enabled(n, Unwind(ancestor, stored))
    ensures Safe(AfterUnwind(n, ancestor, stored))
  {
    var rows, rows' := UnwindRows(n.rows, ancestor), AfterUnwind(n, ancestor, stored).rows;
    UnwindKeepsOrder(n.rows, ancestor);
    if n.slot.pending.Some? {
      ReleaseKeepsOrder(rows, n.slot.pending.value.batch.info.hash);
      RowsAreSafe(n, rows');
      DropIsSafe(n.(rows := rows'));
    } else {
      RowsAreSafe(n, rows);
    }
  }

  lemma StepIsSafe(n: Node, e: Event)
    requires Safe(n) && Enabled(n, e) && LegalEvent(n, e)
    ensures Safe(Apply(n, e))
  {
    match e {
      case Accept(_) =>
      case TryAttempt(w) => AttemptIsSafe(n, w);
      case CancelAttempt =>
      case Reschedule =>
      case Unwind(ancestor, stored) => UnwindIsSafe(n, ancestor, stored);
      case TableChange(c) => ChangeKeepsOrder(n.rows, c);
      case EngineCalls(calls) => ForkchoiceInvariant(n.fcs, calls);
    }
  }

  ghost function ApplyAll(n: Node, events: seq<Event>): Node
    requires LegalRun(n, events)
    decreases |events|
  {
    if events == [] then n else ApplyAll(Apply(n, events[0]), events[1..])
  }

  /**
   Held-slot safety over whole runs: for every interleaving of accepts, attempts with arbitrary
   Engine answers, cancels, reschedules, unwinds, commitments, reverts and other Engine calls, a
   scheduled attempt has a held batch; the accepted batches are, in order, the resolved ones and
   the held one; the database holds exactly one outcome per completed batch; and every one is
   faithful.
   */
  lemma {:induction false} HeldSlotIsSafe(n: Node, events: seq<Event>)
    requires Safe(n) && LegalRun(n, events)
    ensures Safe(ApplyAll(n, events))
    decreases |events|
  {
    if events != [] {
      StepIsSafe(n, events[0]);
      HeldSlotIsSafe(Apply(n, events[0]), events[1..]);
    }
  }

  // ---- A held batch is tried again ----

  /** A live node that holds a batch has an attempt scheduled. */
  predicate Armed(n: Node) {
    n.slot.pending.Some? && !n.halted ==> n.slot.scheduled
  }

  ghost predicate NoCancel(events: seq<Event>) {
    forall i :: 0 <= i < |events| ==> !events[i].CancelAttempt?
  }

  lemma StepKeepsArmed(n: Node, e: Event)
    requires Armed(n) && Enabled(n, e) && !e.CancelAttempt?
    ensures Armed(Apply(n, e))
  {
  }

  /**
   Over every legal run without a cancellation, from a node that is armed: whenever a live node
   holds a batch, whatever the Engine answered before, another attempt is enabled.
   */
  lemma {:induction false} HeldBatchIsRetried(n: Node, events: seq<Event>, w: World)
    requires Armed(n) && LegalRun(n, events) && NoCancel(events)
    ensures Armed(ApplyAll(n, events))
    ensures var m := ApplyAll(n, events); !m.halted && m.slot.pending.Some? ==> Enabled(m, TryAttempt(w))
    decreases |events|
  {
    if events != [] {
      StepKeepsArmed(n, events[0]);
      HeldBatchIsRetried(Apply(n, events[0]), events[1..], w);
    }
  }

  /**
   A cancelled attempt is armed again: a reorg cancels, unwinds and, if the batch survived,
   reschedules at once; whatever was scheduled before, the node is armed afterwards.
   */
  lemma CancelIsUndone(n: Node, ancestor: nat, stored: Option<Hash>)
    requires Enabled(n, CancelAttempt)
    requires Enabled(Apply(n, CancelAttempt), Unwind(ancestor, stored))
    ensures var m := Apply(Apply(n, CancelAttempt), Unwind(ancestor, stored));
            && !m.slot.scheduled && Enabled(m, Reschedule) && Armed(Apply(m, Reschedule))
            && (m.slot.pending.Some? ==>
                  && n.slot.pending.Some? && Apply(m, Reschedule).slot.pending.value.batch == n.slot.pending.value.batch
                  && Apply(m, Reschedule).slot.pending.value.backoff == None)
  {
  }
}
