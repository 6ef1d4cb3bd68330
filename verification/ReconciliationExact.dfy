/** When an attempt completes and when it is held, as a condition on what the world answers. */
module ReconciliationExact {
  import opened Primitives
  import opened ForkchoiceEngine
  import opened Consolidation
  import opened Reconciliation
  import opened ReconciliationProofs

  // ---- Single actions ----

  predicate Valid(answer: FcuAnswer) {
    answer.Answer? && answer.status == VALID
  }

  predicate Syncing(answer: FcuAnswer) {
    answer.Answer? && answer.status == SYNCING
  }

  /** An update above finality goes through on VALID, waits on SYNCING and stops on anything else. */
  lemma UpdateExactly(block: BlockInfo, target: BatchStatus, p: Progress, client: Client)
    requires WellFormed(p.fcs) && p.fcs.finalized.number < block.number
    ensures var r := RunUpdate(block, target, p, client);
            && (r.Going? <==> Valid(client.fcu(p.calls, Fcu)))
            && (r.Stopped? && r.failure.Hold? <==> Syncing(client.fcu(p.calls, Fcu)))
            && r.progress.calls == p.calls + 1
  {
  }

  /** The block the client has to offer for `d` on `parent`: it builds, and what it builds is what was asked for. */
  predicate Offers(d: DerivedAttributes, i: nat, parent: BlockInfo, n: nat, client: Client) {
    && parent.number + 1 == d.number
    && Valid(client.fcu(n, BuildFcu)) && client.fcu(n, BuildFcu).payloadId.Some?
    && client.payload(n + 1, i, parent).Some?
    && var payload := client.payload(n + 1, i, parent).value;
       && payload.parentHash == parent.hash && payload.number == d.number && payload.baseFee == d.baseFee
       && d.attributes.transactions == Some(payload.transactions) && payload.decodes
  }

  /** All four calls of a rebuild went well: build, fetch, import, update. */
  predicate Rebuilt(d: DerivedAttributes, i: nat, parent: BlockInfo, n: nat, client: Client) {
    && Offers(d, i, parent, n, client)
    && client.newPayload(n + 2) == Some(VALID) && Valid(client.fcu(n + 3, Fcu))
  }

  /** The first answer of a rebuild that is not VALID asks to wait; only an import may wait on ACCEPTED. */
  predicate Waits(d: DerivedAttributes, i: nat, parent: BlockInfo, n: nat, client: Client) {
    || (parent.number + 1 == d.number && Syncing(client.fcu(n, BuildFcu)))
    || (Offers(d, i, parent, n, client) && client.newPayload(n + 2) in {Some(SYNCING), Some(ACCEPTED)})
    || (Offers(d, i, parent, n, client) && client.newPayload(n + 2) == Some(VALID) && Syncing(client.fcu(n + 3, Fcu)))
  }

  lemma BuildExactly(d: DerivedAttributes, i: nat, fcs: Fcs, n: nat, client: Client)
    requires WellFormed(fcs) && d.number > 0
    ensures var r := Build(d, i, fcs, n, client);
            && (r.Got? <==> Offers(d, i, fcs.safe, n, client))
            && (r.Got? ==> r.payload == client.payload(n + 1, i, fcs.safe).value && r.calls == n + 2)
            && (r.NotBuilt? && r.failure.Hold? <==> fcs.safe.number + 1 == d.number && Syncing(client.fcu(n, BuildFcu)))
  {
  }

  lemma ImportExactly(payload: Payload, target: BatchStatus, p: Progress, client: Client)
    requires WellFormed(p.fcs) && payload.number == p.fcs.safe.number + 1
    ensures var r := RunImport(payload, target, p, client);
            && (r.Going? <==> client.newPayload(p.calls) == Some(VALID) && Valid(client.fcu(p.calls + 1, Fcu)))
            && (r.Going? ==> r.progress.calls == p.calls + 2 && r.progress.fcs.safe == PayloadInfo(payload).info)
            && (r.Stopped? && r.failure.Hold? <==>
                  || client.newPayload(p.calls) in {Some(SYNCING), Some(ACCEPTED)}
                  || (client.newPayload(p.calls) == Some(VALID) && Syncing(client.fcu(p.calls + 1, Fcu))))
  {
  }

  lemma RebuildExactly(d: DerivedAttributes, i: nat, target: BatchStatus, p: Progress, client: Client)
    requires WellFormed(p.fcs) && d.number > 0
    ensures var r := RunRebuild(d, i, target, p, client);
            && (r.Going? <==> Rebuilt(d, i, p.fcs.safe, p.calls, client))
            && (r.Going? ==>
                  && r.progress.calls == p.calls + 4
                  && r.progress.fcs.safe == PayloadInfo(client.payload(p.calls + 1, i, p.fcs.safe).value).info)
            && (r.Stopped? && r.failure.Hold? <==> Waits(d, i, p.fcs.safe, p.calls, client))
  {
    BuildExactly(d, i, p.fcs, p.calls, client);
    match Build(d, i, p.fcs, p.calls, client) {
      case NotBuilt(_, _) =>
      case Got(payload, calls) => ImportExactly(payload, target, p.(calls := calls), client);
    }
  }

  // ---- The rebuilt suffix ----

  function Offered(i: nat, parent: BlockInfo, n: nat, client: Client): BlockInfo
    requires client.payload(n + 1, i, parent).Some?
  {
    PayloadInfo(client.payload(n + 1, i, parent).value).info
  }

  /** Every block from `from` on is rebuilt, each on the one before, four calls each. */
  predicate AllRebuilt(attrs: seq<DerivedAttributes>, from: nat, parent: BlockInfo, n: nat, client: Client)
    requires from <= |attrs|
    decreases |attrs| - from
  {
    from < |attrs| ==>
      && Rebuilt(attrs[from], from, parent, n, client)
      && AllRebuilt(attrs, from + 1, Offered(from, parent, n, client), n + 4, client)
  }

  /** Some rebuilds go well, and then one waits. */
  predicate OneWaits(attrs: seq<DerivedAttributes>, from: nat, parent: BlockInfo, n: nat, client: Client)
    requires from <= |attrs|
    decreases |attrs| - from
  {
    from < |attrs| &&
    (Waits(attrs[from], from, parent, n, client) ||
     (Rebuilt(attrs[from], from, parent, n, client) &&
      OneWaits(attrs, from + 1, Offered(from, parent, n, client), n + 4, client)))
  }

  lemma {:induction false} RebuildsExactly(attrs: seq<DerivedAttributes>, from: nat, target: BatchStatus, p: Progress, client: Client)
    requires from <= |attrs| && Ascending(attrs) && WellFormed(p.fcs)
    ensures var r := RunActions(Rebuilds(from, |attrs|), attrs, target, p, client);
            && (r.Going? <==> AllRebuilt(attrs, from, p.fcs.safe, p.calls, client))
            && (r.Stopped? && r.failure.Hold? <==> OneWaits(attrs, from, p.fcs.safe, p.calls, client))
    decreases |attrs| - from
  {
    if from < |attrs| {
      var step := RunRebuild(attrs[from], from, target, p, client);
      RebuildsStep(attrs, from, target, p, client);
      RebuildExactly(attrs[from], from, target, p, client);
      if step.Going? {
        var payload := RebuildSound(attrs[from], from, target, p, client);
        ExtendedKeeps(attrs[from], target, p, step.progress, payload);
        RebuildsExactly(attrs, from + 1, target, step.progress, client);
      }
    }
  }

  // ---- The whole attempt ----

  /** The database's safe block is genesis, or on the Engine's chain with the Engine's safe block not beside it. */
  predicate FrontierHolds(w: World, engineSafe: BlockInfo) {
    && w.dbSafe.Some?
    && var safe := w.dbSafe.value;
       safe.number == 0 ||
       (w.readsServed > 0 &&
        if safe.number in w.chain
        then w.chain[safe.number].info == safe && (engineSafe.number == safe.number ==> engineSafe == safe)
        else engineSafe.number < safe.number)
  }

  /** Every read is answered: the frontier's, unless it is genesis, and one per block. */
  predicate ReadsServed(batch: Batch, w: World) {
    && w.dbSafe.Some?
    && |batch.attrs| + (if w.dbSafe.value.number > 0 then 1 else 0) <= w.readsServed
  }

  /** The blocks before `first` are on the Engine's chain; whether the last of them is above finality. */
  predicate Updates(batch: Batch, fcs: Fcs, first: nat)
    requires first <= |batch.attrs|
  {
    first > 0 && batch.attrs[first - 1].number > fcs.finalized.number
  }

  /** What the rebuilds are put on: the last kept block if it is above finality, else the safe block. */
  function Base(batch: Batch, fcs: Fcs, w: World, first: nat): BlockInfo
    requires first <= |batch.attrs|
  {
    if Updates(batch, fcs, first) && batch.attrs[first - 1].number in w.chain
    then w.chain[batch.attrs[first - 1].number].info else fcs.safe
  }

  lemma ExecutionExactly(batch: Batch, fcs: Fcs, w: World)
    requires Legal(batch, fcs, w)
    ensures var r := Execute(batch, fcs, w);
            var first := FirstRebuild(batch.attrs, w.chain, fcs.finalized.number, 0);
            var base := Base(batch, fcs, w, first);
            var calls := if Updates(batch, fcs, first) then 1 else 0;
            var updated := Updates(batch, fcs, first) ==> Valid(w.client.fcu(0, Fcu));
            && (r.Going? <==> updated && AllRebuilt(batch.attrs, first, base, calls, w.client))
            && (r.Stopped? && r.failure.Hold? <==>
                  || (Updates(batch, fcs, first) && Syncing(w.client.fcu(0, Fcu)))
                  || (updated && OneWaits(batch.attrs, first, base, calls, w.client)))
  {
    var a, b := Phases(batch, fcs, w);
    UpdatePhaseSound(batch, fcs, w, a, b);
    var first := UpdatePhase(batch, fcs, w, a, b);
    if b > 0 {
      KeptBlock(batch.attrs, w.chain, fcs.finalized.number, b - 1);
      LastKept(batch, fcs, w, a, b);
    }
    if a < b {
      UpdateExactly(PlanOf(batch, fcs, w)[b - 1].block.info, batch.target, Start(fcs), w.client);
    }
    if first.Going? {
      RebuildsExactly(batch.attrs, b, batch.target, first.progress, w.client);
    }
  }

  lemma LastKept(batch: Batch, fcs: Fcs, w: World, a: nat, b: nat)
    requires Legal(batch, fcs, w) && Shaped(PlanOf(batch, fcs, w), a, b) && b > 0
    requires b == FirstRebuild(batch.attrs, w.chain, fcs.finalized.number, 0)
    ensures a < b <==> Updates(batch, fcs, b)
    ensures batch.attrs[b - 1].number in w.chain
    ensures PlanOf(batch, fcs, w)[b - 1].block.info == w.chain[batch.attrs[b - 1].number].info
  {
    assert PlanOf(batch, fcs, w)[b - 1] == Compare(batch.attrs, w.chain, fcs.finalized.number, b - 1);
  }

  /**
   An attempt completes if and only if the safe frontier holds, every read is answered, the update to
   the last kept block, if there is one, is VALID, every block from the first mismatch on is built,
   fits, decodes, and is imported and made head with VALID, and the write succeeds.
   */
  lemma CompletesExactly(batch: Batch, fcs: Fcs, w: World)
    requires Legal(batch, fcs, w)
    ensures var first := FirstRebuild(batch.attrs, w.chain, fcs.finalized.number, 0);
            Reconcile(batch, fcs, w).1.Completed? <==>
            && FrontierHolds(w, fcs.safe) && ReadsServed(batch, w) && w.writeServed
            && (Updates(batch, fcs, first) ==> Valid(w.client.fcu(0, Fcu)))
            && AllRebuilt(batch.attrs, first, Base(batch, fcs, w, first), if Updates(batch, fcs, first) then 1 else 0, w.client)
  {
    ExecutionExactly(batch, fcs, w);
  }

  /**
   An attempt is held if and only if it got as far as the Engine and the first answer that is not
   VALID is SYNCING, or ACCEPTED to an import. Any other failure is fatal.
   */
  lemma HoldsExactly(batch: Batch, fcs: Fcs, w: World)
    requires Legal(batch, fcs, w)
    ensures var first := FirstRebuild(batch.attrs, w.chain, fcs.finalized.number, 0);
            var attempt := Reconcile(batch, fcs, w).1;
            attempt.Failed? && attempt.failure.Hold? <==>
            && FrontierHolds(w, fcs.safe) && ReadsServed(batch, w)
            && if Updates(batch, fcs, first) && !Valid(w.client.fcu(0, Fcu)) then Syncing(w.client.fcu(0, Fcu))
               else OneWaits(batch.attrs, first, Base(batch, fcs, w, first), if Updates(batch, fcs, first) then 1 else 0, w.client)
  {
    ExecutionExactly(batch, fcs, w);
  }

  // ---- Which blocks are kept ----

  /**
   The first block that is rebuilt is the first that is missing on the Engine's chain or differs in
   any field the batch pins: base fee, transactions, timestamp, randomness, the nonce (zero unless
   given) and, where given, gas limit, extra data, state root and coinbase.
   */
  lemma KeptExactly(attrs: seq<DerivedAttributes>, chain: map<nat, L2Block>, finalized: nat, i: nat)
    requires i < |attrs|
    ensures var d := attrs[i];
            !Compare(attrs, chain, finalized, i).Rebuild? <==>
            && d.number in chain
            && var b := chain[d.number];
               && b.baseFee == Some(d.baseFee) && d.attributes.transactions == Some(b.transactions)
               && b.timestamp == d.attributes.timestamp
               && (if b.mixHash.Some? then b.mixHash.value else ZERO_HASH) == d.attributes.prevRandao
               && (if b.nonce.Some? then b.nonce.value else 0) ==
                  (if d.attributes.hint.nonce.Some? then d.attributes.hint.nonce.value else 0)
               && d.attributes.gasLimit in {None, Some(b.gasLimit)}
               && d.attributes.hint.extraData in {None, Some(b.extraData)}
               && d.attributes.hint.stateRoot in {None, Some(b.stateRoot)}
               && d.attributes.hint.coinbase in {None, Some(b.beneficiary)}
    ensures i < FirstRebuild(attrs, chain, finalized, 0) <==>
              forall k :: 0 <= k <= i ==> !Compare(attrs, chain, finalized, k).Rebuild?
  {
  }
}
