/**
 The Engine's safe block and the database's over whole runs: the block table is written by the
 attempts and rewritten by L1 reorgs and batch reverts, and the Engine is asked to follow.
 */
module SafeMirror {
  import opened Primitives
  import opened ForkchoiceEngine
  import opened Consolidation
  import opened Reconciliation
  import opened ReconciliationProofs
  import opened BatchTables
  import opened HeldSlot
  import opened Orchestrator

  type Blocks = map<BlockKey, L2Row>

  function InfosOf(blocks: seq<L2BlockInfo>): seq<BlockInfo> {
    seq(|blocks|, i requires 0 <= i < |blocks| => blocks[i].info)
  }

  // ---- Storing the blocks of a batch ----

  /** A hash names one block: what is stored under it has the number it comes with. */
  ghost predicate OneNumber(blocks: Blocks, added: seq<BlockInfo>, batch: Hash) {
    && (forall i :: 0 <= i < |added| && BlockKey(added[i].hash, batch) in blocks ==>
          blocks[BlockKey(added[i].hash, batch)].number == added[i].number)
    && (forall i, j :: 0 <= i < |added| && 0 <= j < |added| && added[i].hash == added[j].hash ==> added[i].number == added[j].number)
  }

  ghost predicate Unreverted(blocks: Blocks, batch: Hash) {
    forall k :: k in blocks && k.batch == batch ==> !blocks[k].reverted
  }

  /** No stored block that is not reverted is higher. */
  ghost predicate TopAt(blocks: Blocks, number: nat) {
    forall k :: k in blocks && !blocks[k].reverted ==> blocks[k].number <= number
  }

  /** What was stored stays as it was; what is new is one of the added blocks, not reverted. */
  ghost predicate Adds(blocks: Blocks, added: seq<BlockInfo>, batch: Hash, after: Blocks) {
    && (forall k :: k in blocks ==> k in after && after[k] == blocks[k])
    && (forall b :: b in added ==> BlockKey(b.hash, batch) in after)
    && (forall k :: k in after && k !in blocks ==>
          k.batch == batch && !after[k].reverted && BlockInfo(after[k].number, k.hash) in added)
  }

  lemma AddOne(blocks: Blocks, front: seq<BlockInfo>, last: BlockInfo, batch: Hash, before: Blocks)
    requires Adds(blocks, front, batch, before) && OneNumber(blocks, front + [last], batch)
    ensures Adds(blocks, front + [last], batch, WithBlock(before, last, batch))
  {
    var added, key := front + [last], BlockKey(last.hash, batch);
    assert added[|front|] == last;
    if key in before && key !in blocks {
      SameNumber(added, BlockInfo(before[key].number, key.hash), last);
    }
    assert key in before ==> before[key].number == last.number;
  }

  lemma {:induction false} StoredBlocks(blocks: Blocks, added: seq<BlockInfo>, batch: Hash)
    requires OneNumber(blocks, added, batch)
    ensures Adds(blocks, added, batch, WithBlocks(blocks, added, batch))
    decreases |added|
  {
    if added != [] {
      var front, last := added[..|added| - 1], added[|added| - 1];
      assert added == front + [last];
      assert forall i :: 0 <= i < |front| ==> front[i] == added[i];
      StoredBlocks(blocks, front, batch);
      AddOne(blocks, front, last, batch, WithBlocks(blocks, front, batch));
    }
  }

  /** The highest added block is the safe block exactly when no stored block is higher. */
  lemma TopIsSafe(blocks: Blocks, added: seq<BlockInfo>, batch: Hash, top: BlockInfo)
    requires OneNumber(blocks, added, batch) && Unreverted(blocks, batch)
    requires top in added && forall b :: b in added ==> b.number <= top.number
    ensures LatestSafe(WithBlocks(blocks, added, batch), top) <==> TopAt(blocks, top.number)
  {
    var after := WithBlocks(blocks, added, batch);
    StoredBlocks(blocks, added, batch);
    var i :| 0 <= i < |added| && added[i] == top;
    var k := BlockKey(added[i].hash, batch);
    assert k in after && !after[k].reverted;
    if k !in blocks {
      SameNumber(added, BlockInfo(after[k].number, k.hash), top);
    }
    assert top == BlockInfo(after[k].number, k.hash);
  }

  lemma SameNumber(added: seq<BlockInfo>, b: BlockInfo, c: BlockInfo)
    requires b in added && c in added && b.hash == c.hash
    requires forall i, j :: 0 <= i < |added| && 0 <= j < |added| && added[i].hash == added[j].hash ==> added[i].number == added[j].number
    ensures b == c
  {
    var i :| 0 <= i < |added| && added[i] == b;
    var j :| 0 <= j < |added| && added[j] == c;
    assert added[i].number == added[j].number;
  }

  /** Blocks at or below the safe block leave it the safe block. */
  lemma LowerBlocksKeepSafe(blocks: Blocks, added: seq<BlockInfo>, batch: Hash, safe: BlockInfo)
    requires OneNumber(blocks, added, batch) && LatestSafe(blocks, safe)
    requires forall b :: b in added ==> b.number <= safe.number
    ensures LatestSafe(WithBlocks(blocks, added, batch), safe)
  {
    var after := WithBlocks(blocks, added, batch);
    StoredBlocks(blocks, added, batch);
    var k :| k in blocks && !blocks[k].reverted && safe == BlockInfo(blocks[k].number, k.hash);
    assert k in after && after[k] == blocks[k];
    forall j | j in after && !after[j].reverted
      ensures after[j].number <= safe.number
    {
      if j !in blocks {
        assert BlockInfo(after[j].number, j.hash) in added;
      }
    }
  }

  // ---- Where an attempt leaves the safe block ----

  function LastNumber(attrs: seq<DerivedAttributes>): nat
    requires attrs != []
  {
    attrs[|attrs| - 1].number
  }

  /** Rebuilds that stop leave the safe block where it was or below the end of the batch. */
  lemma {:induction false} StoppedRebuilds(attrs: seq<DerivedAttributes>, from: nat, target: BatchStatus, p: Progress, client: Client)
    requires from <= |attrs| && Ascending(attrs) && WellFormed(p.fcs)
    requires RunActions(Rebuilds(from, |attrs|), attrs, target, p, client).Stopped?
    ensures from < |attrs|
    ensures var safe := RunActions(Rebuilds(from, |attrs|), attrs, target, p, client).progress.fcs.safe;
            safe == p.fcs.safe || safe.number < LastNumber(attrs)
    decreases |attrs| - from
  {
    if from < |attrs| {
      var payload := RebuildSound(attrs[from], from, target, p, client);
      var step := RunRebuild(attrs[from], from, target, p, client);
      RebuildsStep(attrs, from, target, p, client);
      if step.Going? {
        ExtendedKeeps(attrs[from], target, p, step.progress, payload);
        StoppedRebuilds(attrs, from + 1, target, step.progress, client);
      }
    }
  }

  /** A held attempt left the safe block where it was, or below the end of the batch. */
  lemma HoldStaysBehind(batch: Batch, fcs: Fcs, w: World)
    requires Legal(batch, fcs, w)
    requires Reconcile(batch, fcs, w).1.Failed? && Reconcile(batch, fcs, w).1.failure.Hold?
    ensures var safe := Reconcile(batch, fcs, w).0.fcs.safe;
            safe == fcs.safe || (batch.attrs != [] && safe.number < LastNumber(batch.attrs))
  {
    var p := Reconcile(batch, fcs, w).0;
    if p != Start(fcs) {
      StoppedBehind(batch, fcs, w, p);
    }
  }

  lemma StoppedBehind(batch: Batch, fcs: Fcs, w: World, p: Progress)
    requires Legal(batch, fcs, w) && Execute(batch, fcs, w).Stopped? && Execute(batch, fcs, w).progress == p
    ensures p.fcs.safe == fcs.safe || (batch.attrs != [] && p.fcs.safe.number < LastNumber(batch.attrs))
  {
    var a, b := Phases(batch, fcs, w);
    UpdatePhaseSound(batch, fcs, w, a, b);
    var first := UpdatePhase(batch, fcs, w, a, b);
    if first.Going? {
      StoppedRebuilds(batch.attrs, b, batch.target, first.progress, w.client);
      assert a < b ==> first.progress.fcs.safe.number == batch.attrs[b - 1].number;
    }
  }

  /** A completed attempt that skipped its last block skipped them all and made no call. */
  lemma CompletedBySkipping(batch: Batch, fcs: Fcs, w: World)
    requires Legal(batch, fcs, w) && Reconcile(batch, fcs, w).1.Completed?
    requires batch.attrs == [] || PlanOf(batch, fcs, w)[|batch.attrs| - 1].Skip?
    ensures Reconcile(batch, fcs, w).0.fcs == fcs
    ensures batch.attrs != [] ==> LastNumber(batch.attrs) <= fcs.finalized.number
  {
    var a, b := ExecuteSound(batch, fcs, w);
    CompletedParts(batch, fcs, w);
    BlocksAre(batch, fcs, w, Reconcile(batch, fcs, w).0, a, b);
  }

  // ---- The node ----

  datatype Node = Node(tables: Tables, fcs: Fcs, held: Option<Batch>, halted: bool)

  /** `safe` is what the database reports after the change; `served` says that the L2 client knew the head and the blocks above it. */
  datatype Event =
    | Accept(batch: Batch)
    | TryAttempt(world: World)
    | L1Reorg(ancestor: nat, head: Option<BlockInfo>, served: bool, safe: BlockInfo, answer: FcuAnswer)
    | BatchRevert(first: nat, last: nat, blockNumber: nat, synced: bool, safe: BlockInfo, answer: FcuAnswer)
    | RowChange(change: Change)
    | EngineCalls(calls: seq<(Op, FcuAnswer)>)

  predicate LeavesSafe(op: Op) {
    match op
    case UpdateFcs(_, safe, _) => safe.None?
    case UpdateFcsChecked(_, safe, _) => safe.None?
    case _ => true
  }

  /** L1 is listened to only while no batch is held; only attempts and L1 name a safe block. */
  ghost predicate Enabled(n: Node, e: Event) {
    && !n.halted
    && match e
       case Accept(_) => n.held.None?
       case TryAttempt(w) => n.held.Some? && (w.dbSafe.Some? ==> LatestSafe(n.tables.blocks, w.dbSafe.value))
       case L1Reorg(ancestor, _, _, safe, _) =>
         n.held.None? && (!Untouched(n.tables.rows, ancestor) ==> LatestSafe(Unwound(n.tables, ancestor).blocks, safe))
       case BatchRevert(first, last, number, _, safe, _) =>
         n.held.None? && LatestSafe(RangeReverted(n.tables, first, last, number).blocks, safe)
       case RowChange(c) => n.held.None? && !c.RevertRange?
       case EngineCalls(calls) => forall i :: 0 <= i < |calls| ==> LeavesSafe(calls[i].0)
  }

  /** The Engine is asked to follow; unless it confirms, the run loop stops. */
  function Followed(n: Node, head: Option<BlockInfo>, safe: Option<BlockInfo>, answer: FcuAnswer): Node {
    var (fcs, r) := Perform(n.fcs, UpdateFcsChecked(head, safe, None), answer);
    n.(fcs := fcs, halted := !(r.Responded? && r.status == VALID))
  }

  ghost function AfterReorg(n: Node, ancestor: nat, head: Option<BlockInfo>, served: bool, safe: BlockInfo, answer: FcuAnswer): Node {
    var n1 := n.(tables := Unwound(n.tables, ancestor));
    var reported := if Untouched(n.tables.rows, ancestor) then None else Some(safe);
    if head.Some? && !served then n1
    else if head.Some? || reported.Some? then Followed(n1, head, reported, answer)
    else n1
  }

  function AfterRevert(n: Node, first: nat, last: nat, number: nat, synced: bool, safe: BlockInfo, answer: FcuAnswer): Node {
    var n1 := n.(tables := RangeReverted(n.tables, first, last, number));
    if synced then Followed(n1, None, Some(safe), answer) else n1
  }

  function Consolidated(t: Tables, outcome: BatchOutcome): Tables {
    Tables(Changed(t.rows, SetStatus(outcome.info.hash, outcome.target)),
           WithBlocks(t.blocks, InfosOf(outcome.blocks), outcome.info.hash))
  }

  function AfterTry(n: Node, fcs: Fcs, attempt: Attempt): Node {
    match attempt
    case Completed(outcome) => n.(tables := Consolidated(n.tables, outcome), fcs := fcs, held := None)
    case Failed(Hold(_, _)) => n.(fcs := fcs)
    case Failed(Fatal(_)) => n.(fcs := fcs, halted := true)
  }

  ghost function Apply(n: Node, e: Event): Node
    requires Enabled(n, e)
  {
    match e
    case Accept(batch) => n.(held := Some(batch))
    case TryAttempt(w) =>
      var (p, attempt) := Reconcile(n.held.value, n.fcs, w);
      AfterTry(n, p.fcs, attempt)
    case L1Reorg(ancestor, head, served, safe, answer) => AfterReorg(n, ancestor, head, served, safe, answer)
    case BatchRevert(first, last, number, synced, safe, answer) => AfterRevert(n, first, last, number, synced, safe, answer)
    case RowChange(c) => n.(tables := n.tables.(rows := Changed(n.tables.rows, c)))
    case EngineCalls(calls) => n.(fcs := Run(n.fcs, calls))
  }

  // ---- The mirror ----

  /** The batch reaches at least as high as anything stored, and nothing stored for it is reverted. */
  ghost predicate Tops(blocks: Blocks, batch: Batch) {
    && Ascending(batch.attrs) && Unreverted(blocks, batch.info.hash)
    && (batch.attrs != [] ==> TopAt(blocks, LastNumber(batch.attrs)))
  }

  /** While a batch is held, attempts may have moved the Engine's safe block into it, short of its end. */
  ghost predicate Midway(blocks: Blocks, fcs: Fcs, batch: Batch) {
    LatestSafe(blocks, fcs.safe) || (batch.attrs != [] && fcs.safe.number < LastNumber(batch.attrs))
  }

  ghost predicate InStep(n: Node) {
    !n.halted ==>
      && WellFormed(n.fcs)
      && (n.held.None? ==> LatestSafe(n.tables.blocks, n.fcs.safe))
      && (n.held.Some? ==> Tops(n.tables.blocks, n.held.value) && Midway(n.tables.blocks, n.fcs, n.held.value))
  }

  /**
   The batches come in order, hashes name one block, the L2 client serves what a reorg asks of it
   and batch reverts are seen when synced.
   */
  ghost predicate Regular(n: Node, e: Event)
    requires Enabled(n, e)
  {
    match e
    case Accept(batch) => Tops(n.tables.blocks, batch)
    case TryAttempt(w) =>
      && Numbered(w.chain)
      && (Reconcile(n.held.value, n.fcs, w).1.Completed? ==>
            OneNumber(n.tables.blocks, InfosOf(Reconcile(n.held.value, n.fcs, w).1.outcome.blocks), n.held.value.info.hash))
    case L1Reorg(_, head, served, _, _) => head.Some? ==> served
    case BatchRevert(_, _, _, synced, _, _) => synced
    case RowChange(_) => true
    case EngineCalls(_) => true
  }

  // ---- One completed attempt ----

  /** The numbers of the blocks written are those of the attributes; none is above the last. */
  lemma WrittenNumbers(batch: Batch, blocks: seq<L2BlockInfo>)
    requires Ascending(batch.attrs) && |blocks| == |batch.attrs| > 0
    requires forall i :: 0 <= i < |blocks| ==> Describes(batch.attrs[i], blocks[i])
    ensures var added := InfosOf(blocks);
            && added[|added| - 1] in added && added[|added| - 1].number == LastNumber(batch.attrs)
            && forall b :: b in added ==> b.number <= LastNumber(batch.attrs)
  {
    var added := InfosOf(blocks);
    forall b | b in added
      ensures b.number <= LastNumber(batch.attrs)
    {
      var i :| 0 <= i < |added| && added[i] == b;
      assert Describes(batch.attrs[i], blocks[i]) && blocks[i].info == b;
      assert batch.attrs[i].number <= batch.attrs[|batch.attrs| - 1].number;
    }
    assert Describes(batch.attrs[|blocks| - 1], blocks[|blocks| - 1]);
  }

  /**
   After a completed attempt whose last block was not skipped, the Engine's safe block is the
   database's if and only if nothing stored before is higher than the batch.
   */
  lemma CompletedMirrorsExactly(blocks: Blocks, batch: Batch, fcs: Fcs, w: World)
    requires Legal(batch, fcs, w) && Reconcile(batch, fcs, w).1.Completed? && batch.attrs != []
    requires !PlanOf(batch, fcs, w)[|batch.attrs| - 1].Skip? && Unreverted(blocks, batch.info.hash)
    requires OneNumber(blocks, InfosOf(Reconcile(batch, fcs, w).1.outcome.blocks), batch.info.hash)
    ensures var (p, attempt) := Reconcile(batch, fcs, w);
            LatestSafe(WithBlocks(blocks, InfosOf(attempt.outcome.blocks), batch.info.hash), p.fcs.safe) <==>
            TopAt(blocks, LastNumber(batch.attrs))
  {
    var (p, attempt) := Reconcile(batch, fcs, w);
    var added := InfosOf(attempt.outcome.blocks);
    CompletedIsFaithful(batch, fcs, w);
    WrittenNumbers(batch, attempt.outcome.blocks);
    assert added[|added| - 1] == p.fcs.safe;
    TopIsSafe(blocks, added, batch.info.hash, p.fcs.safe);
  }

  /** A completed attempt that skipped everything leaves the safe block alone. */
  lemma SkippedMirrors(blocks: Blocks, batch: Batch, fcs: Fcs, w: World)
    requires Legal(batch, fcs, w) && Reconcile(batch, fcs, w).1.Completed? && Midway(blocks, fcs, batch)
    requires batch.attrs == [] || PlanOf(batch, fcs, w)[|batch.attrs| - 1].Skip?
    requires OneNumber(blocks, InfosOf(Reconcile(batch, fcs, w).1.outcome.blocks), batch.info.hash)
    ensures var (p, attempt) := Reconcile(batch, fcs, w);
            LatestSafe(WithBlocks(blocks, InfosOf(attempt.outcome.blocks), batch.info.hash), p.fcs.safe)
  {
    var outcome := Reconcile(batch, fcs, w).1.outcome;
    var added := InfosOf(outcome.blocks);
    CompletedBySkipping(batch, fcs, w);
    CompletedIsFaithful(batch, fcs, w);
    if batch.attrs != [] {
      WrittenNumbers(batch, outcome.blocks);
    }
    assert LatestSafe(blocks, fcs.safe);
    LowerBlocksKeepSafe(blocks, added, batch.info.hash, fcs.safe);
  }

  lemma CompletedMirrors(blocks: Blocks, batch: Batch, fcs: Fcs, w: World)
    requires Legal(batch, fcs, w) && Reconcile(batch, fcs, w).1.Completed?
    requires Tops(blocks, batch) && Midway(blocks, fcs, batch)
    requires OneNumber(blocks, InfosOf(Reconcile(batch, fcs, w).1.outcome.blocks), batch.info.hash)
    ensures var (p, attempt) := Reconcile(batch, fcs, w);
            LatestSafe(WithBlocks(blocks, InfosOf(attempt.outcome.blocks), batch.info.hash), p.fcs.safe)
  {
    if batch.attrs == [] || PlanOf(batch, fcs, w)[|batch.attrs| - 1].Skip? {
      SkippedMirrors(blocks, batch, fcs, w);
    } else {
      CompletedMirrorsExactly(blocks, batch, fcs, w);
    }
  }

  lemma HeldStaysMidway(blocks: Blocks, batch: Batch, fcs: Fcs, w: World)
    requires Legal(batch, fcs, w) && Midway(blocks, fcs, batch)
    requires Reconcile(batch, fcs, w).1.Failed? && Reconcile(batch, fcs, w).1.failure.Hold?
    ensures Midway(blocks, Reconcile(batch, fcs, w).0.fcs, batch)
  {
    HoldStaysBehind(batch, fcs, w);
  }

  // ---- Every step ----

  lemma TryKeepsInStep(n: Node, w: World)
    requires InStep(n) && Enabled(n, TryAttempt(w)) && Regular(n, TryAttempt(w))
    ensures InStep(Apply(n, TryAttempt(w)))
  {
    var batch, blocks := n.held.value, n.tables.blocks;
    var (p, attempt) := Reconcile(batch, n.fcs, w);
    NoInternalRejection(batch, n.fcs, w);
    if attempt.Completed? {
      assert attempt.outcome.info == batch.info;
      CompletedMirrors(blocks, batch, n.fcs, w);
    } else if attempt.failure.Hold? {
      HeldStaysMidway(blocks, batch, n.fcs, w);
    }
  }

  /** The Engine that followed holds the safe block it was asked for. */
  lemma FollowedIsSafe(n: Node, head: Option<BlockInfo>, safe: Option<BlockInfo>, answer: FcuAnswer)
    requires LatestSafe(n.tables.blocks, Or(safe, n.fcs.safe)) && n.held.None?
    ensures InStep(Followed(n, head, safe, answer))
  {
  }

  lemma ReorgKeepsInStep(n: Node, ancestor: nat, head: Option<BlockInfo>, served: bool, safe: BlockInfo, answer: FcuAnswer)
    requires var e := L1Reorg(ancestor, head, served, safe, answer); InStep(n) && Enabled(n, e) && Regular(n, e)
    ensures InStep(AfterReorg(n, ancestor, head, served, safe, answer))
  {
    var t := Unwound(n.tables, ancestor);
    var reported := if Untouched(n.tables.rows, ancestor) then None else Some(safe);
    MovedIsExact(n.tables, ancestor);
    assert LatestSafe(t.blocks, Or(reported, n.fcs.safe));
    FollowedIsSafe(n.(tables := t), head, reported, answer);
  }

  lemma {:induction false} CallsLeaveSafe(s: Fcs, calls: seq<(Op, FcuAnswer)>)
    requires forall i :: 0 <= i < |calls| ==> LeavesSafe(calls[i].0)
    ensures Run(s, calls).safe == s.safe
    decreases |calls|
  {
    if calls != [] {
      assert LeavesSafe(calls[0].0);
      CallsLeaveSafe(Perform(s, calls[0].0, calls[0].1).0, calls[1..]);
    }
  }

  lemma StepKeepsInStep(n: Node, e: Event)
    requires InStep(n) && Enabled(n, e) && Regular(n, e)
    ensures InStep(Apply(n, e))
  {
    match e {
      case Accept(_) =>
      case TryAttempt(w) => TryKeepsInStep(n, w);
      case L1Reorg(ancestor, head, served, safe, answer) => ReorgKeepsInStep(n, ancestor, head, served, safe, answer);
      case BatchRevert(first, last, number, _, safe, answer) =>
        FollowedIsSafe(n.(tables := RangeReverted(n.tables, first, last, number)), None, Some(safe), answer);
      case RowChange(_) =>
      case EngineCalls(calls) =>
        CallsLeaveSafe(n.fcs, calls);
        ForkchoiceInvariant(n.fcs, calls);
    }
  }

  // ---- Whole runs ----

  ghost predicate RegularRun(n: Node, events: seq<Event>)
    decreases |events|
  {
    events == [] || (Enabled(n, events[0]) && Regular(n, events[0]) && RegularRun(Apply(n, events[0]), events[1..]))
  }

  ghost function ApplyAll(n: Node, events: seq<Event>): Node
    requires RegularRun(n, events)
    decreases |events|
  {
    if events == [] then n else ApplyAll(Apply(n, events[0]), events[1..])
  }

  /**
   Over every regular run: whenever the node is alive and no batch is held, the Engine's safe
   block is the highest stored block that is not reverted.
   */
  lemma {:induction false} SafeBlockIsTheDatabases(n: Node, events: seq<Event>)
    requires RegularRun(n, events) && InStep(n)
    ensures InStep(ApplyAll(n, events))
    ensures var m := ApplyAll(n, events); !m.halted && m.held.None? ==> LatestSafe(m.tables.blocks, m.fcs.safe)
    decreases |events|
  {
    if events != [] {
      StepKeepsInStep(n, events[0]);
      SafeBlockIsTheDatabases(Apply(n, events[0]), events[1..]);
    }
  }

  // ---- The steps are the handlers' ----

  /** An idle node as the handlers leave it. */
  function Idle(t: Tables, fcs: Fcs, halted: bool): Node {
    Node(t, fcs, None, halted)
  }

  /** The reorg handler does this module's step; only an Engine that does not follow stops the loop. */
  method ReorgOn(engine: Engine, driver: DerivationDriver, table: BatchTable, ancestor: nat,
                 head: Option<nat>, hashes: map<nat, Hash>, revertedReadable: bool, answer: FcuAnswer)
    returns (r: Reaction, ghost safe: BlockInfo)
    requires driver.pending.None?
    modifies engine, driver, table
    ensures !r.NoSafeBlock? && !Untouched(old(table.rows), ancestor) ==> LatestSafe(table.blocks, safe)
    ensures !r.NoSafeBlock? ==>
              Idle(table.View(), engine.View(), r.EngineDidNotFollow?) ==
              AfterReorg(Idle(old(table.View()), old(engine.View()), false), ancestor,
                         if head.Some? then Some(BlockInfo(head.value, if head.value in hashes then hashes[head.value] else 0)) else None,
                         head.Some? && head.value in hashes && revertedReadable, safe, answer)
  {
    ghost var t := table.View();
    var verdict, reported;
    r, verdict, reported := HandleL1Reorg(engine, driver, table, ancestor, true, head, hashes, revertedReadable, answer);
    safe := if reported.Some? then reported.value else BlockInfo(0, 0);
    StatementsCompose(t, ancestor);
  }

  method RevertOn(engine: Engine, table: BatchTable, first: nat, last: nat, blockNumber: nat, synced: bool, answer: FcuAnswer)
    returns (r: Reaction, ghost safe: BlockInfo)
    modifies engine, table
    ensures !r.NoSafeBlock? ==> LatestSafe(table.blocks, safe)
    ensures !r.NoSafeBlock? ==>
              Idle(table.View(), engine.View(), r.EngineDidNotFollow?) ==
              AfterRevert(Idle(old(table.View()), old(engine.View()), false), first, last, blockNumber, synced, safe, answer)
  {
    var reported;
    r, reported := HandleBatchRevert(engine, table, first, last, blockNumber, true, synced, answer);
    safe := if reported.Some? then reported.value else BlockInfo(0, 0);
  }

  // ---- What the regularities exclude ----

  /** A row of the safe block that the revert leaves alone. */
  ghost predicate KeptByRevert(t: Tables, safe: BlockInfo, first: nat, last: nat) {
    exists k :: k in t.blocks && !t.blocks[k].reverted && safe == BlockInfo(t.blocks[k].number, k.hash)
                && !(k.batch in t.rows && InRevert(t.rows[k.batch], first, last))
  }

  /**
   A batch revert seen before the node is synced does not move the Engine. Its safe block is
   still the database's if and only if it is stored outside the reverted batches.
   */
  lemma UnsyncedRevertMirrorsExactly(n: Node, first: nat, last: nat, number: nat, safe: BlockInfo, answer: FcuAnswer)
    requires LatestSafe(n.tables.blocks, n.fcs.safe)
    ensures var m := AfterRevert(n, first, last, number, false, safe, answer);
            m.fcs == n.fcs && m.halted == n.halted
    ensures var m := AfterRevert(n, first, last, number, false, safe, answer);
            LatestSafe(m.tables.blocks, m.fcs.safe) <==> KeptByRevert(n.tables, n.fcs.safe, first, last)
  {
    var t, after := n.tables, RangeReverted(n.tables, first, last, number);
    assert forall k :: k in after.blocks <==> k in t.blocks;
    if KeptByRevert(t, n.fcs.safe, first, last) {
      var k :| k in t.blocks && !t.blocks[k].reverted && n.fcs.safe == BlockInfo(t.blocks[k].number, k.hash)
               && !(k.batch in t.rows && InRevert(t.rows[k.batch], first, last));
      assert k in after.blocks && after.blocks[k] == t.blocks[k];
    }
  }

  /** A row of the safe block that the unwind keeps or brings back. */
  ghost predicate KeptByUnwind(t: Tables, safe: BlockInfo, ancestor: nat) {
    exists k :: k in t.blocks && safe == BlockInfo(t.blocks[k].number, k.hash) && !CommittedAbove(t.rows, k.batch, ancestor)
                && (t.blocks[k].reverted ==> RevertUndone(t.rows, k.batch, ancestor))
  }

  /** A higher block comes back because its batch's revert is undone. */
  ghost predicate Uncovered(t: Tables, safe: BlockInfo, ancestor: nat) {
    exists k :: k in t.blocks && t.blocks[k].reverted && t.blocks[k].number > safe.number
                && RevertUndone(t.rows, k.batch, ancestor) && !CommittedAbove(t.rows, k.batch, ancestor)
  }

  /**
   A reorg whose new head the L2 client cannot serve is logged and the loop goes on, with the
   tables unwound and the Engine where it was. Its safe block is still the database's if and only
   if the unwind keeps it stored and brings back no higher one.
   */
  lemma UnservedReorgMirrorsExactly(n: Node, ancestor: nat, head: BlockInfo, safe: BlockInfo, answer: FcuAnswer)
    requires LatestSafe(n.tables.blocks, n.fcs.safe)
    ensures var m := AfterReorg(n, ancestor, Some(head), false, safe, answer);
            m.fcs == n.fcs && m.halted == n.halted
    ensures var m := AfterReorg(n, ancestor, Some(head), false, safe, answer);
            LatestSafe(m.tables.blocks, m.fcs.safe) <==>
            KeptByUnwind(n.tables, n.fcs.safe, ancestor) && !Uncovered(n.tables, n.fcs.safe, ancestor)
  {
    var t, after, b := n.tables, Unwound(n.tables, ancestor), n.fcs.safe;
    BlocksAfter(t, ancestor);
    if KeptByUnwind(t, b, ancestor) && !Uncovered(t, b, ancestor) {
      var k :| k in t.blocks && b == BlockInfo(t.blocks[k].number, k.hash) && !CommittedAbove(t.rows, k.batch, ancestor)
               && (t.blocks[k].reverted ==> RevertUndone(t.rows, k.batch, ancestor));
      assert k in after.blocks && !after.blocks[k].reverted;
    }
  }

  /** Block 1 of batch 1 is safe; the batch is reverted before the node is synced and the Engine keeps it. */
  lemma UnsyncedRevertExample(answer: FcuAnswer)
    ensures var genesis, one := BlockInfo(0, 10), BlockInfo(1, 11);
            var t := Tables(map[5 := Row(1, 3, None, None, BatchStatus.Consolidated)],
                            map[BlockKey(10, 0) := L2Row(0, false), BlockKey(11, 5) := L2Row(1, false)]);
            var n := Node(t, Fcs(one, one, genesis), None, false);
            var e := BatchRevert(1, 1, 4, false, genesis, answer);
            && InStep(n) && Enabled(n, e)
            && !Apply(n, e).halted && !LatestSafe(Apply(n, e).tables.blocks, Apply(n, e).fcs.safe)
  {
    var genesis, one := BlockInfo(0, 10), BlockInfo(1, 11);
    var t := Tables(map[5 := Row(1, 3, None, None, BatchStatus.Consolidated)],
                    map[BlockKey(10, 0) := L2Row(0, false), BlockKey(11, 5) := L2Row(1, false)]);
    var n := Node(t, Fcs(one, one, genesis), None, false);
    var after := RangeReverted(t, 1, 1, 4).blocks;
    assert t.blocks[BlockKey(11, 5)].number == 1 && !t.blocks[BlockKey(11, 5)].reverted;
    assert !after[BlockKey(10, 0)].reverted && after[BlockKey(10, 0)].number == 0;
    assert after[BlockKey(11, 5)].reverted;
    UnsyncedRevertMirrorsExactly(n, 1, 1, 4, genesis, answer);
  }
}
