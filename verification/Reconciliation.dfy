/**
 One attempt to reconcile the held batch: the safe-frontier check, the plan, its execution
 against an Engine client that may answer anything, and the write to the database.
 */
module Reconciliation {
  import opened Primitives
  import opened ForkchoiceEngine
  import opened Consolidation

  datatype Payload = Payload(
    parentHash: Hash,
    number: nat,
    baseFee: nat,
    transactions: seq<Bytes>,
    hash: Hash,
    decodes: bool)

  function PayloadInfo(p: Payload): L2BlockInfo {
    L2BlockInfo(BlockInfo(p.number, p.hash), L1Messages(p.transactions))
  }

  /**
   An Engine client: its answer to the n-th call, which may depend on what kind of call it is (a
   forkchoice call with attributes or without). A payload may depend on the attributes (by
   index) and on the parent it was asked to build on. `None` is a failed request.
   */
  datatype Client = Client(
    fcu: (nat, EngineMethod) -> FcuAnswer,
    payload: (nat, nat, BlockInfo) -> Option<Payload>,
    newPayload: nat -> Option<PayloadStatus>)

  datatype EngineMethod = BuildFcu | NewPayload | Fcu

  datatype Reason =
    | DatabaseFailed | RpcFailed | SafeFrontierMismatch | SkipReached | NonAdjacentSafe
    | ForkchoiceRejected | RequestFailed | UnexpectedStatus | InvalidStatus
    | MissingPayloadId | PayloadMismatch | ConversionFailed

  datatype Failure = Hold(call: EngineMethod, status: PayloadStatus) | Fatal(reason: Reason)

  /** The forkchoice state, the client calls made, the blocks rebuilt and whether the head moved. */
  datatype Progress = Progress(fcs: Fcs, calls: nat, rebuilt: seq<Payload>, headMoved: bool)

  datatype Outcome = Going(progress: Progress) | Stopped(progress: Progress, failure: Failure)

  // ---- Classifying answers ----

  function ClassifyFcu(call: EngineMethod, r: FcuResult): Option<Failure> {
    match r
    case FcsFailed(_) => Some(Fatal(ForkchoiceRejected))
    case TransportFailed => Some(Fatal(RequestFailed))
    case Panicked => Some(Fatal(UnexpectedStatus))
    case Responded(status, _) =>
      match status
      case VALID => None
      case SYNCING => Some(Hold(call, SYNCING))
      case ACCEPTED => Some(Fatal(UnexpectedStatus))
      case INVALID => Some(Fatal(InvalidStatus))
  }

  function ClassifyNewPayload(answer: Option<PayloadStatus>): Option<Failure> {
    match answer
    case None => Some(Fatal(RequestFailed))
    case Some(VALID) => None
    case Some(SYNCING) => Some(Hold(NewPayload, SYNCING))
    case Some(ACCEPTED) => Some(Hold(NewPayload, ACCEPTED))
    case Some(INVALID) => Some(Fatal(InvalidStatus))
  }

  /** A rejected candidate never reaches the client. */
  function CallsMade(r: FcuResult): nat {
    if r.FcsFailed? then 0 else 1
  }

  function IfFinalized(target: BatchStatus, block: BlockInfo): Option<BlockInfo> {
    if target == BatchStatus.Finalized then Some(block) else None
  }

  // ---- Single actions ----

  function HeadUpdate(head: BlockInfo, target: BlockInfo): Option<BlockInfo> {
    if head.number <= target.number && head != target then Some(target) else None
  }

  function RunUpdate(block: BlockInfo, target: BatchStatus, p: Progress, client: Client): Outcome {
    var head := HeadUpdate(p.fcs.head, block);
    var (fcs, r) := Perform(p.fcs, UpdateFcsChecked(head, Some(block), IfFinalized(target, block)), client.fcu(p.calls, Fcu));
    var p1 := p.(fcs := fcs, calls := p.calls + CallsMade(r));
    match ClassifyFcu(Fcu, r)
    case Some(failure) => Stopped(p1, failure)
    case None => Going(p1.(headMoved := p.headMoved || head.Some?))
  }

  predicate PayloadFits(p: Payload, d: DerivedAttributes, parent: BlockInfo) {
    && p.parentHash == parent.hash && p.number == d.number
    && p.baseFee == d.baseFee && d.attributes.transactions == Some(p.transactions)
  }

  /** The second half of a rebuild: import the payload and make it the head. */
  function RunImport(payload: Payload, target: BatchStatus, p: Progress, client: Client): Outcome {
    var status := client.newPayload(p.calls);
    var p1 := p.(calls := p.calls + 1);
    match ClassifyNewPayload(status)
    case Some(failure) => Stopped(p1, failure)
    case None =>
      var block := PayloadInfo(payload).info;
      var (fcs, r) := Perform(p.fcs, UpdateFcsChecked(Some(block), Some(block), IfFinalized(target, block)), client.fcu(p1.calls, Fcu));
      var p2 := p1.(fcs := fcs, calls := p1.calls + CallsMade(r));
      match ClassifyFcu(Fcu, r)
      case Some(failure) => Stopped(p2, failure)
      case None => Going(p2.(rebuilt := p.rebuilt + [payload], headMoved := true))
  }

  /** The client builds on the head of the state it is asked to adopt. */
  function BuildsOn(fcs: Fcs, op: Op): BlockInfo {
    match Requested(fcs, op)
    case Accept(asked) => asked.head
    case Reject(_) => fcs.head
  }

  datatype Built = Got(payload: Payload, calls: nat) | NotBuilt(failure: Failure, calls: nat)

  /** The first half of a rebuild: have the client build the derived block on the safe block. */
  function Build(d: DerivedAttributes, index: nat, fcs: Fcs, calls: nat, client: Client): Built {
    if fcs.safe.number != Pred(d.number) then NotBuilt(Fatal(NonAdjacentSafe), calls) else
    var op := BuildPayload(Some(fcs.safe));
    var r := Perform(fcs, op, client.fcu(calls, BuildFcu)).1;
    var calls1 := calls + CallsMade(r);
    match ClassifyFcu(BuildFcu, r)
    case Some(failure) => NotBuilt(failure, calls1)
    case None =>
      if r.payloadId.None? then NotBuilt(Fatal(MissingPayloadId), calls1) else
      match client.payload(calls1, index, BuildsOn(fcs, op))
      case None => NotBuilt(Fatal(RequestFailed), calls1 + 1)
      case Some(payload) =>
        if !PayloadFits(payload, d, fcs.safe) then NotBuilt(Fatal(PayloadMismatch), calls1 + 1)
        else if !payload.decodes then NotBuilt(Fatal(ConversionFailed), calls1 + 1)
        else Got(payload, calls1 + 1)
  }

  function RunRebuild(d: DerivedAttributes, index: nat, target: BatchStatus, p: Progress, client: Client): Outcome {
    match Build(d, index, p.fcs, p.calls, client)
    case NotBuilt(failure, calls) => Stopped(p.(calls := calls), failure)
    case Got(payload, calls) => RunImport(payload, target, p.(calls := calls), client)
  }

  // ---- Action lists ----

  function RunAction(action: Action, attrs: seq<DerivedAttributes>, target: BatchStatus, p: Progress, client: Client): Outcome
    requires action.Rebuild? ==> action.index < |attrs|
  {
    match action
    case Skip(_) => Stopped(p, Fatal(SkipReached))
    case UpdateTo(block) => RunUpdate(block.info, target, p, client)
    case Rebuild(i) => RunRebuild(attrs[i], i, target, p, client)
  }

  function RunActions(actions: seq<Action>, attrs: seq<DerivedAttributes>, target: BatchStatus, p: Progress, client: Client): Outcome
    requires InRange(actions, |attrs|)
    decreases |actions|
  {
    if actions == [] then Going(p)
    else match RunAction(actions[0], attrs, target, p, client)
      case Stopped(_, _) => RunAction(actions[0], attrs, target, p, client)
      case Going(next) => RunActions(actions[1..], attrs, target, next, client)
  }

  // ---- The attempt ----

  datatype Batch = Batch(info: BatchInfo, attrs: seq<DerivedAttributes>, skipped: seq<nat>, target: BatchStatus)

  datatype BatchOutcome = BatchOutcome(
    info: BatchInfo,
    blocks: seq<L2BlockInfo>,
    skipped: seq<nat>,
    target: BatchStatus,
    headMoved: bool)

  /** The world an attempt meets: the database's safe block, the L2 provider and the Engine client. */
  datatype World = World(
    dbSafe: Option<BlockInfo>,
    chain: map<nat, L2Block>,
    readsServed: nat,
    client: Client,
    writeServed: bool)

  datatype Attempt = Completed(outcome: BatchOutcome) | Failed(failure: Failure)

  /** The Engine's chain contains the database's safe block. */
  predicate OnDatabaseChain(dbSafe: BlockInfo, engineSafe: BlockInfo, canonical: Option<BlockInfo>) {
    match canonical
    case Some(block) => block == dbSafe && (engineSafe.number != dbSafe.number || engineSafe == dbSafe)
    case None => engineSafe.number < dbSafe.number
  }

  function Canonical(chain: map<nat, L2Block>, n: nat): Option<BlockInfo> {
    if n in chain then Some(chain[n].info) else None
  }

  function FrontierReads(dbSafe: BlockInfo): nat {
    if dbSafe.number > 0 then 1 else 0
  }

  function CheckFrontier(w: World, engineSafe: BlockInfo): Option<Failure> {
    if w.dbSafe.None? then Some(Fatal(DatabaseFailed))
    else if w.dbSafe.value.number == 0 then None
    else if w.readsServed == 0 then Some(Fatal(RpcFailed))
    else if !OnDatabaseChain(w.dbSafe.value, engineSafe, Canonical(w.chain, w.dbSafe.value.number))
    then Some(Fatal(SafeFrontierMismatch))
    else None
  }

  /** The kept blocks, in order. */
  function Kept(actions: seq<Action>): seq<L2BlockInfo> {
    if actions == [] then []
    else (if actions[0].Rebuild? then [] else [actions[0].block]) + Kept(actions[1..])
  }

  function Infos(ps: seq<Payload>): seq<L2BlockInfo> {
    seq(|ps|, i requires 0 <= i < |ps| => PayloadInfo(ps[i]))
  }

  function OutcomeOf(batch: Batch, actions: seq<Action>, p: Progress): BatchOutcome {
    BatchOutcome(batch.info, Kept(actions) + Infos(p.rebuilt), batch.skipped, batch.target, p.headMoved)
  }

  function Start(fcs: Fcs): Progress {
    Progress(fcs, 0, [], false)
  }

  function Execute(batch: Batch, fcs: Fcs, w: World): Outcome {
    var plan := Plan(batch.attrs, w.chain, fcs.finalized.number);
    RunActions(Collapsed(plan), batch.attrs, batch.target, Start(fcs), w.client)
  }

  function Reconcile(batch: Batch, fcs: Fcs, w: World): (Progress, Attempt) {
    var blocked := CheckFrontier(w, fcs.safe);
    if blocked.Some? then (Start(fcs), Failed(blocked.value))
    else if w.readsServed < FrontierReads(w.dbSafe.value) + |batch.attrs| then (Start(fcs), Failed(Fatal(RpcFailed)))
    else match Execute(batch, fcs, w)
      case Stopped(p, failure) => (p, Failed(failure))
      case Going(p) =>
        if !w.writeServed then (p, Failed(Fatal(DatabaseFailed)))
        else (p, Completed(OutcomeOf(batch, Plan(batch.attrs, w.chain, fcs.finalized.number), p)))
  }

  // ---- The attempt in place ----

  /** The rows the node writes when a batch is consolidated, oldest first. */
  class Database {
    var outcomes: seq<BatchOutcome>

    constructor ()
      ensures outcomes == []
    {
      outcomes := [];
    }
  }

  /** What the loop keeps next to the Engine: calls made, blocks rebuilt, whether the head moved. */
  datatype Work = Work(calls: nat, rebuilt: seq<Payload>, headMoved: bool)

  function Join(fcs: Fcs, work: Work): Progress {
    Progress(fcs, work.calls, work.rebuilt, work.headMoved)
  }

  function End(fcs: Fcs, work: Work, failure: Option<Failure>): Outcome {
    if failure.None? then Going(Join(fcs, work)) else Stopped(Join(fcs, work), failure.value)
  }

  method UpdateOn(engine: Engine, block: BlockInfo, target: BatchStatus, work: Work, client: Client)
    returns (after: Work, failure: Option<Failure>)
    modifies engine
    ensures End(engine.View(), after, failure) == RunUpdate(block, target, Join(old(engine.View()), work), client)
  {
    var head := HeadUpdate(engine.fcs.head, block);
    var r := engine.UpdateChecked(head, Some(block), IfFinalized(target, block), client.fcu(work.calls, Fcu));
    after := work.(calls := work.calls + CallsMade(r));
    failure := ClassifyFcu(Fcu, r);
    if failure.None? {
      after := after.(headMoved := work.headMoved || head.Some?);
    }
  }

  method BuildOn(engine: Engine, d: DerivedAttributes, index: nat, calls: nat, client: Client) returns (built: Built)
    ensures built == Build(d, index, engine.View(), calls, client)
  {
    var safe := engine.fcs.safe;
    if safe.number != Pred(d.number) {
      return NotBuilt(Fatal(NonAdjacentSafe), calls);
    }
    var r := engine.Build(Some(safe), client.fcu(calls, BuildFcu));
    var made := calls + CallsMade(r);
    var failure := ClassifyFcu(BuildFcu, r);
    if failure.Some? {
      return NotBuilt(failure.value, made);
    }
    if r.payloadId.None? {
      return NotBuilt(Fatal(MissingPayloadId), made);
    }
    var payload := client.payload(made, index, safe);
    if payload.None? {
      return NotBuilt(Fatal(RequestFailed), made + 1);
    }
    if !PayloadFits(payload.value, d, safe) {
      return NotBuilt(Fatal(PayloadMismatch), made + 1);
    }
    if !payload.value.decodes {
      return NotBuilt(Fatal(ConversionFailed), made + 1);
    }
    return Got(payload.value, made + 1);
  }

  method ImportOn(engine: Engine, payload: Payload, target: BatchStatus, work: Work, client: Client)
    returns (after: Work, failure: Option<Failure>)
    modifies engine
    ensures End(engine.View(), after, failure) == RunImport(payload, target, Join(old(engine.View()), work), client)
  {
    failure := ClassifyNewPayload(client.newPayload(work.calls));
    after := work.(calls := work.calls + 1);
    if failure.Some? {
      return;
    }
    var block := PayloadInfo(payload).info;
    var r := engine.UpdateChecked(Some(block), Some(block), IfFinalized(target, block), client.fcu(after.calls, Fcu));
    after := after.(calls := after.calls + CallsMade(r));
    failure := ClassifyFcu(Fcu, r);
    if failure.None? {
      after := after.(rebuilt := work.rebuilt + [payload], headMoved := true);
    }
  }

  method RebuildOn(engine: Engine, d: DerivedAttributes, index: nat, target: BatchStatus, work: Work, client: Client)
    returns (after: Work, failure: Option<Failure>)
    modifies engine
    ensures End(engine.View(), after, failure) == RunRebuild(d, index, target, Join(old(engine.View()), work), client)
  {
    var built := BuildOn(engine, d, index, work.calls, client);
    if built.NotBuilt? {
      return work.(calls := built.calls), Some(built.failure);
    }
    after, failure := ImportOn(engine, built.payload, target, work.(calls := built.calls), client);
  }

  method ExecuteOn(engine: Engine, actions: seq<Action>, batch: Batch, client: Client)
    returns (work: Work, failure: Option<Failure>)
    requires InRange(actions, |batch.attrs|)
    modifies engine
    ensures End(engine.View(), work, failure) ==
            RunActions(actions, batch.attrs, batch.target, Start(old(engine.View())), client)
  {
    work, failure := Work(0, [], false), None;
    var i := 0;
    while i < |actions|
      invariant i <= |actions| && failure.None?
      invariant InRange(actions[i..], |batch.attrs|)
      invariant RunActions(actions[i..], batch.attrs, batch.target, Join(engine.View(), work), client) ==
                RunActions(actions, batch.attrs, batch.target, Start(old(engine.View())), client)
    {
      assert actions[i..][0] == actions[i] && actions[i..][1..] == actions[i + 1..];
      match actions[i] {
        case Skip(_) =>
          failure := Some(Fatal(SkipReached));
        case UpdateTo(block) =>
          work, failure := UpdateOn(engine, block.info, batch.target, work, client);
        case Rebuild(index) =>
          work, failure := RebuildOn(engine, batch.attrs[index], index, batch.target, work, client);
      }
      if failure.Some? {
        return;
      }
      i := i + 1;
    }
    assert actions[i..] == [];
  }

  /** First the kept blocks, then the rebuilt ones. */
  method CollectBlocks(actions: seq<Action>, rebuilt: seq<Payload>) returns (blocks: seq<L2BlockInfo>)
    ensures blocks == Kept(actions) + Infos(rebuilt)
  {
    blocks := [];
    for i := 0 to |actions|
      invariant blocks == Kept(actions[..i])
    {
      if !actions[i].Rebuild? {
        blocks := blocks + [actions[i].block];
      }
      assert actions[..i + 1] == actions[..i] + [actions[i]];
      KeptAppend(actions[..i], actions[i]);
    }
    assert actions[..|actions|] == actions;
    for i := 0 to |rebuilt|
      invariant blocks == Kept(actions) + Infos(rebuilt[..i])
    {
      blocks := blocks + [PayloadInfo(rebuilt[i])];
      assert Infos(rebuilt[..i + 1]) == Infos(rebuilt[..i]) + [PayloadInfo(rebuilt[i])];
    }
    assert rebuilt[..|rebuilt|] == rebuilt;
  }

  lemma {:induction false} KeptAppend(actions: seq<Action>, last: Action)
    ensures Kept(actions + [last]) == Kept(actions) + if last.Rebuild? then [] else [last.block]
    decreases |actions|
  {
    var all := actions + [last];
    if actions == [] {
      assert all == [last] && all[1..] == [];
    } else {
      assert all[0] == actions[0] && all[1..] == actions[1..] + [last];
      KeptAppend(actions[1..], last);
    }
  }

  /** One attempt: at most one outcome is written, and only when every action went through. */
  method ReconcileAndConsolidate(engine: Engine, db: Database, batch: Batch, w: World) returns (attempt: Attempt)
    modifies engine, db
    ensures engine.View() == Reconcile(batch, old(engine.View()), w).0.fcs
    ensures attempt == Reconcile(batch, old(engine.View()), w).1
    ensures db.outcomes == old(db.outcomes) + if attempt.Completed? then [attempt.outcome] else []
  {
    var blocked := CheckFrontier(w, engine.fcs.safe);
    if blocked.Some? {
      return Failed(blocked.value);
    }
    if w.readsServed < FrontierReads(w.dbSafe.value) + |batch.attrs| {
      return Failed(Fatal(RpcFailed));
    }
    var plan := ReconcileBatch(batch.attrs, w.chain, engine.fcs.finalized.number);
    var aggregated := AggregateActions(plan);
    var work, failure := ExecuteOn(engine, aggregated, batch, w.client);
    if failure.Some? {
      return Failed(failure.value);
    }
    var blocks := CollectBlocks(plan, work.rebuilt);
    if !w.writeServed {
      return Failed(Fatal(DatabaseFailed));
    }
    var outcome := BatchOutcome(batch.info, blocks, batch.skipped, batch.target, work.headMoved);
    db.outcomes := db.outcomes + [outcome];
    return Completed(outcome);
  }
}
