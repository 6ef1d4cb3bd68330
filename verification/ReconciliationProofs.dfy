/** What every reconciliation attempt guarantees, whatever the Engine client answers. */
module ReconciliationProofs {
  import opened Primitives
  import opened ForkchoiceEngine
  import opened Consolidation
  import opened Reconciliation

  // ---- No internal rejection ----

  /** The failure is the client's, the payload's or the safe frontier's: never the node's own candidate. */
  predicate External(f: Failure) {
    f != Fatal(ForkchoiceRejected) && f != Fatal(SkipReached)
  }

  /** An update above the finalized block is accepted, whatever the head is. */
  lemma UpdateSound(block: BlockInfo, target: BatchStatus, p: Progress, client: Client)
    requires WellFormed(p.fcs) && p.fcs.finalized.number < block.number
    ensures var r := RunUpdate(block, target, p, client);
            && WellFormed(r.progress.fcs) && Advances(p.fcs.finalized, r.progress.fcs.finalized)
            && r.progress.rebuilt == p.rebuilt
            && (r.Stopped? ==> External(r.failure) && r.progress.fcs == p.fcs)
            && (r.Going? ==>
                  && r.progress.fcs.safe == block
                  && r.progress.fcs.finalized == (if target == BatchStatus.Finalized then block else p.fcs.finalized)
                  && r.progress.headMoved == (p.headMoved || r.progress.fcs.head != p.fcs.head)
                  && r.progress.fcs.head == if p.fcs.head.number > block.number then p.fcs.head else block)
  {
  }

  /** The block a completed rebuild of `d` on `parent` produced. */
  predicate RebuiltFrom(payload: Payload, d: DerivedAttributes, parent: BlockInfo) {
    PayloadFits(payload, d, parent) && payload.decodes && parent.number + 1 == d.number
  }

  lemma ImportSound(payload: Payload, target: BatchStatus, p: Progress, client: Client)
    requires WellFormed(p.fcs) && payload.number == p.fcs.safe.number + 1
    ensures var r := RunImport(payload, target, p, client);
            && (r.Stopped? ==> External(r.failure) && r.progress.fcs == p.fcs && r.progress.rebuilt == p.rebuilt)
            && (r.Going? ==>
                  var block := PayloadInfo(payload).info;
                  && r.progress.rebuilt == p.rebuilt + [payload] && r.progress.headMoved
                  && r.progress.fcs == Fcs(block, block, if target == BatchStatus.Finalized then block else p.fcs.finalized))
  {
  }

  lemma BuildSound(d: DerivedAttributes, index: nat, fcs: Fcs, calls: nat, client: Client)
    requires WellFormed(fcs) && d.number > 0
    ensures match Build(d, index, fcs, calls, client)
            case Got(payload, _) => RebuiltFrom(payload, d, fcs.safe)
            case NotBuilt(failure, _) => External(failure)
  {
  }

  /** `q` is `p` after `payload` was built on the safe block, imported and made head and safe. */
  predicate Extended(d: DerivedAttributes, target: BatchStatus, p: Progress, q: Progress, payload: Payload) {
    var block := PayloadInfo(payload).info;
    && RebuiltFrom(payload, d, p.fcs.safe)
    && q.rebuilt == p.rebuilt + [payload] && q.headMoved
    && q.fcs == Fcs(block, block, if target == BatchStatus.Finalized then block else p.fcs.finalized)
  }

  /** A rebuild extends the safe block by exactly the block the attributes describe, or changes nothing. */
  lemma RebuildSound(d: DerivedAttributes, index: nat, target: BatchStatus, p: Progress, client: Client)
    returns (payload: Payload)
    requires WellFormed(p.fcs) && d.number > 0
    ensures var r := RunRebuild(d, index, target, p, client);
            && (r.Stopped? ==> External(r.failure) && r.progress.fcs == p.fcs && r.progress.rebuilt == p.rebuilt)
            && (r.Going? ==> Extended(d, target, p, r.progress, payload))
  {
    payload := Payload(0, 0, 0, [], 0, false);
    BuildSound(d, index, p.fcs, p.calls, client);
    match Build(d, index, p.fcs, p.calls, client) {
      case NotBuilt(_, _) =>
      case Got(built, calls) =>
        payload := built;
        ImportSound(payload, target, p.(calls := calls), client);
    }
  }

  lemma ExtendedKeeps(d: DerivedAttributes, target: BatchStatus, p: Progress, q: Progress, payload: Payload)
    requires WellFormed(p.fcs) && Extended(d, target, p, q, payload)
    ensures WellFormed(q.fcs) && Advances(p.fcs.finalized, q.fcs.finalized)
  {
  }

  // ---- The rebuilt suffix ----

  function Rebuilds(from: nat, to: nat): (r: seq<Action>)
    requires from <= to
    ensures InRange(r, to)
  {
    seq(to - from, i requires 0 <= i < to - from => Rebuild(from + i))
  }

  /** The blocks rebuilt for `attrs[from..]`: one each, in order, each on top of the one before. */
  ghost predicate RebuiltChain(attrs: seq<DerivedAttributes>, from: nat, parent: BlockInfo, built: seq<Payload>)
    decreases |built|
  {
    if built == [] then from == |attrs|
    else
      && from < |attrs| && RebuiltFrom(built[0], attrs[from], parent)
      && RebuiltChain(attrs, from + 1, PayloadInfo(built[0]).info, built[1..])
  }

  /** The head and safe block after `built` was put on top of `p`. */
  function Tip(p: Progress, built: seq<Payload>): BlockInfo {
    if built == [] then p.fcs.safe else PayloadInfo(built[|built| - 1]).info
  }

  /** `q` is `p` after the whole suffix was rebuilt. */
  ghost predicate SuffixRebuilt(attrs: seq<DerivedAttributes>, from: nat, target: BatchStatus, p: Progress, q: Progress, built: seq<Payload>) {
    && RebuiltChain(attrs, from, p.fcs.safe, built)
    && q.rebuilt == p.rebuilt + built
    && (built != [] ==>
          && q.headMoved && q.fcs.head == q.fcs.safe == Tip(p, built)
          && q.fcs.finalized == if target == BatchStatus.Finalized then Tip(p, built) else p.fcs.finalized)
    && (built == [] ==> q == p)
  }

  lemma SuffixCons(attrs: seq<DerivedAttributes>, from: nat, target: BatchStatus, p: Progress, mid: Progress, q: Progress, payload: Payload, rest: seq<Payload>)
    requires from < |attrs| && Extended(attrs[from], target, p, mid, payload)
    requires SuffixRebuilt(attrs, from + 1, target, mid, q, rest)
    ensures SuffixRebuilt(attrs, from, target, p, q, [payload] + rest)
  {
    assert ([payload] + rest)[1..] == rest;
    assert p.rebuilt + [payload] + rest == p.rebuilt + ([payload] + rest);
  }

  /** A run of rebuilds from `p`: complete and linked, or stopped for an external reason. */
  ghost predicate SoundRun(attrs: seq<DerivedAttributes>, from: nat, target: BatchStatus, p: Progress, r: Outcome, built: seq<Payload>) {
    && WellFormed(r.progress.fcs) && Advances(p.fcs.finalized, r.progress.fcs.finalized)
    && (r.Stopped? ==> External(r.failure))
    && (r.Going? ==> SuffixRebuilt(attrs, from, target, p, r.progress, built))
  }

  lemma SoundCons(attrs: seq<DerivedAttributes>, from: nat, target: BatchStatus, p: Progress, mid: Progress, r: Outcome, payload: Payload, rest: seq<Payload>)
    requires from < |attrs| && WellFormed(p.fcs) && Extended(attrs[from], target, p, mid, payload)
    requires SoundRun(attrs, from + 1, target, mid, r, rest)
    ensures SoundRun(attrs, from, target, p, r, [payload] + rest)
  {
    if r.Going? {
      SuffixCons(attrs, from, target, p, mid, r.progress, payload, rest);
    }
  }

  /** Running the rebuilds from `from` on: the first one, then the rest. */
  lemma RebuildsStep(attrs: seq<DerivedAttributes>, from: nat, target: BatchStatus, p: Progress, client: Client)
    requires from < |attrs|
    ensures var step := RunRebuild(attrs[from], from, target, p, client);
            RunActions(Rebuilds(from, |attrs|), attrs, target, p, client) ==
            if step.Stopped? then step
            else RunActions(Rebuilds(from + 1, |attrs|), attrs, target, step.progress, client)
  {
    var actions := Rebuilds(from, |attrs|);
    assert actions[0] == Rebuild(from) && actions[1..] == Rebuilds(from + 1, |attrs|);
  }

  lemma {:induction false} RebuildsSound(attrs: seq<DerivedAttributes>, from: nat, target: BatchStatus, p: Progress, client: Client)
    returns (built: seq<Payload>)
    requires from <= |attrs| && Ascending(attrs) && WellFormed(p.fcs)
    ensures SoundRun(attrs, from, target, p, RunActions(Rebuilds(from, |attrs|), attrs, target, p, client), built)
    decreases |attrs| - from
  {
    built := [];
    if from == |attrs| {
      assert p.rebuilt + [] == p.rebuilt;
    } else {
      var payload := RebuildSound(attrs[from], from, target, p, client);
      var step := RunRebuild(attrs[from], from, target, p, client);
      RebuildsStep(attrs, from, target, p, client);
      if step.Going? {
        ExtendedKeeps(attrs[from], target, p, step.progress, payload);
        var rest := RebuildsSound(attrs, from + 1, target, step.progress, client);
        SoundCons(attrs, from, target, p, step.progress,
                  RunActions(Rebuilds(from + 1, |attrs|), attrs, target, step.progress, client), payload, rest);
        built := [payload] + rest;
      }
    }
  }

  /** The blocks of a rebuilt chain, one by one. */
  lemma {:induction false} RebuiltLinks(attrs: seq<DerivedAttributes>, from: nat, parent: BlockInfo, built: seq<Payload>, i: nat)
    requires RebuiltChain(attrs, from, parent, built) && i < |built|
    ensures from + |built| == |attrs|
    ensures RebuiltFrom(built[i], attrs[from + i], if i == 0 then parent else PayloadInfo(built[i - 1]).info)
    decreases i
  {
    if i > 0 {
      RebuiltLinks(attrs, from + 1, PayloadInfo(built[0]).info, built[1..], i - 1);
    } else if |built| > 1 {
      RebuiltCount(attrs, from + 1, PayloadInfo(built[0]).info, built[1..]);
    }
  }

  lemma {:induction false} RebuiltCount(attrs: seq<DerivedAttributes>, from: nat, parent: BlockInfo, built: seq<Payload>)
    requires RebuiltChain(attrs, from, parent, built)
    ensures from + |built| == |attrs|
    decreases |built|
  {
    if built != [] {
      RebuiltCount(attrs, from + 1, PayloadInfo(built[0]).info, built[1..]);
    }
  }

  // ---- The whole execution ----

  function PlanOf(batch: Batch, fcs: Fcs, w: World): seq<Action> {
    Plan(batch.attrs, w.chain, fcs.finalized.number)
  }

  ghost predicate Legal(batch: Batch, fcs: Fcs, w: World) {
    WellFormed(fcs) && Ascending(batch.attrs) && Numbered(w.chain)
  }

  /** The state the rebuilds start from: after the one update that survived collapsing, if any. */
  function UpdatePhase(batch: Batch, fcs: Fcs, w: World, a: nat, b: nat): Outcome
    requires a <= b <= |PlanOf(batch, fcs, w)| && (a < b ==> PlanOf(batch, fcs, w)[b - 1].UpdateTo?)
  {
    if a < b then RunUpdate(PlanOf(batch, fcs, w)[b - 1].block.info, batch.target, Start(fcs), w.client)
    else Going(Start(fcs))
  }

  /** The run of a collapsed plan is at most one update followed by the rebuilds. */
  lemma RunPhases(plan: seq<Action>, a: nat, b: nat, attrs: seq<DerivedAttributes>, target: BatchStatus, p: Progress, client: Client)
    requires Shaped(plan, a, b) && |plan| == |attrs| && InRange(Collapsed(plan), |attrs|)
    ensures var first := if a < b then RunUpdate(plan[b - 1].block.info, target, p, client) else Going(p);
            RunActions(Collapsed(plan), attrs, target, p, client) ==
            if first.Stopped? then first
            else RunActions(Rebuilds(b, |attrs|), attrs, target, first.progress, client)
  {
    CollapsedShape(plan, a, b);
    assert plan[b..] == Rebuilds(b, |attrs|);
    var actions := Collapsed(plan);
    if a < b {
      assert actions[0] == plan[b - 1] && actions[1..] == plan[b..];
    } else {
      assert actions == plan[b..];
    }
  }

  lemma Phases(batch: Batch, fcs: Fcs, w: World) returns (a: nat, b: nat)
    requires Legal(batch, fcs, w)
    ensures Shaped(PlanOf(batch, fcs, w), a, b) && b == FirstRebuild(batch.attrs, w.chain, fcs.finalized.number, 0)
    ensures var first := UpdatePhase(batch, fcs, w, a, b);
            Execute(batch, fcs, w) ==
            if first.Stopped? then first
            else RunActions(Rebuilds(b, |batch.attrs|), batch.attrs, batch.target, first.progress, w.client)
    ensures forall i :: a <= i < b ==> batch.attrs[i].number > fcs.finalized.number
    ensures forall i :: 0 <= i < b ==> PlanOf(batch, fcs, w)[i].block.info.number == batch.attrs[i].number
  {
    a, b := PlanShape(batch.attrs, w.chain, fcs.finalized.number);
    RunPhases(PlanOf(batch, fcs, w), a, b, batch.attrs, batch.target, Start(fcs), w.client);
  }

  lemma UpdatePhaseSound(batch: Batch, fcs: Fcs, w: World, a: nat, b: nat)
    requires WellFormed(fcs) && Shaped(PlanOf(batch, fcs, w), a, b)
    requires a < b ==> PlanOf(batch, fcs, w)[b - 1].block.info.number > fcs.finalized.number
    ensures var first := UpdatePhase(batch, fcs, w, a, b);
            && WellFormed(first.progress.fcs) && Advances(fcs.finalized, first.progress.fcs.finalized)
            && first.progress.rebuilt == []
            && (first.Stopped? ==> External(first.failure) && first.progress.fcs == fcs)
            && (first.Going? && a < b ==>
                  var block := PlanOf(batch, fcs, w)[b - 1].block.info;
                  && first.progress.fcs.safe == block
                  && first.progress.fcs.finalized == (if batch.target == BatchStatus.Finalized then block else fcs.finalized)
                  && first.progress.fcs.head == (if fcs.head.number > block.number then fcs.head else block)
                  && first.progress.headMoved == (first.progress.fcs.head != fcs.head))
  {
    if a < b {
      UpdateSound(PlanOf(batch, fcs, w)[b - 1].block.info, batch.target, Start(fcs), w.client);
    }
  }

  /** What an execution that went through left behind. */
  ghost predicate Executed(batch: Batch, fcs: Fcs, w: World, q: Progress, a: nat, b: nat)
    requires Shaped(PlanOf(batch, fcs, w), a, b)
  {
    var plan := PlanOf(batch, fcs, w);
    var parent := if a < b then plan[b - 1].block.info else fcs.safe;
    && RebuiltChain(batch.attrs, b, parent, q.rebuilt)
    && (q.rebuilt != [] ==> q.headMoved && q.fcs.head == q.fcs.safe == PayloadInfo(q.rebuilt[|q.rebuilt| - 1]).info)
    && (q.rebuilt == [] && a < b ==>
          && q.fcs.safe == parent && q.fcs.head == (if fcs.head.number > parent.number then fcs.head else parent)
          && q.headMoved == (q.fcs.head != fcs.head))
    && (q.rebuilt != [] || a < b ==>
          q.fcs.finalized == if batch.target == BatchStatus.Finalized then q.fcs.safe else fcs.finalized)
    && (q.rebuilt == [] && a == b ==> q.fcs == fcs && !q.headMoved)
  }

  lemma ExecuteSound(batch: Batch, fcs: Fcs, w: World) returns (a: nat, b: nat)
    requires Legal(batch, fcs, w)
    ensures Shaped(PlanOf(batch, fcs, w), a, b)
    ensures b == FirstRebuild(batch.attrs, w.chain, fcs.finalized.number, 0)
    ensures var r := Execute(batch, fcs, w);
            && WellFormed(r.progress.fcs) && Advances(fcs.finalized, r.progress.fcs.finalized)
            && (r.Stopped? ==> External(r.failure))
            && (r.Going? ==> Executed(batch, fcs, w, r.progress, a, b))
  {
    a, b := Phases(batch, fcs, w);
    UpdatePhaseSound(batch, fcs, w, a, b);
    var first := UpdatePhase(batch, fcs, w, a, b);
    if first.Going? {
      var built := RebuildsSound(batch.attrs, b, batch.target, first.progress, w.client);
      var r := RunActions(Rebuilds(b, |batch.attrs|), batch.attrs, batch.target, first.progress, w.client);
      if r.Going? {
        assert r.progress.rebuilt == built;
      }
    }
  }

  // ---- The theorems ----

  /**
   No internal rejection: from a well-formed forkchoice state and increasing positive block
   numbers, no Skip reaches the execution loop and every candidate passes the forkchoice checks,
   so an attempt only fails on the world's account. The state stays well formed and finality
   only advances.
   */
  lemma NoInternalRejection(batch: Batch, fcs: Fcs, w: World)
    requires Legal(batch, fcs, w)
    ensures var (p, attempt) := Reconcile(batch, fcs, w);
            && WellFormed(p.fcs) && Advances(fcs.finalized, p.fcs.finalized)
            && (attempt.Failed? ==> External(attempt.failure))
  {
    var _, _ := ExecuteSound(batch, fcs, w);
  }

  lemma NoUpdateBefore(attrs: seq<DerivedAttributes>, a: nat, b: nat, i: nat, finalized: nat)
    requires Ascending(attrs) && a <= b <= i < |attrs| && attrs[i].number <= finalized
    requires forall k :: a <= k < b ==> attrs[k].number > finalized
    ensures a == b && attrs[b].number <= finalized
  {
    assert attrs[a].number <= attrs[i].number && attrs[b].number <= attrs[i].number;
  }

  /** A mismatch at or below the finalized block stops the attempt before any Engine call. */
  lemma FinalizedMismatchStops(batch: Batch, fcs: Fcs, w: World, i: nat)
    requires Legal(batch, fcs, w) && i < |batch.attrs|
    requires batch.attrs[i].number <= fcs.finalized.number
    requires Compare(batch.attrs, w.chain, fcs.finalized.number, i).Rebuild?
    ensures Execute(batch, fcs, w) == Stopped(Start(fcs), Fatal(NonAdjacentSafe))
    ensures Reconcile(batch, fcs, w).0 == Start(fcs) && Reconcile(batch, fcs, w).1.Failed?
  {
    var a, b := Phases(batch, fcs, w);
    NoUpdateBefore(batch.attrs, a, b, i, fcs.finalized.number);
    RebuildsStep(batch.attrs, b, batch.target, Start(fcs), w.client);
  }

  lemma {:induction false} KeptShape(actions: seq<Action>, b: nat)
    requires b <= |actions| && (forall i :: 0 <= i < b ==> !actions[i].Rebuild?)
    requires forall i :: b <= i < |actions| ==> actions[i].Rebuild?
    ensures |Kept(actions)| == b
    ensures forall i :: 0 <= i < b ==> Kept(actions)[i] == actions[i].block
    decreases |actions|
  {
    if actions != [] {
      KeptShape(actions[1..], if b == 0 then 0 else b - 1);
    }
  }

  /** The persisted block is the one the attributes describe: same number, same L1 messages. */
  predicate Describes(d: DerivedAttributes, block: L2BlockInfo) {
    && block.info.number == d.number && d.attributes.transactions.Some?
    && block.l1Messages == L1Messages(d.attributes.transactions.value)
  }

  /** The persisted blocks are the kept ones followed by the rebuilt ones. */
  lemma BlocksAre(batch: Batch, fcs: Fcs, w: World, q: Progress, a: nat, b: nat)
    requires Shaped(PlanOf(batch, fcs, w), a, b) && Executed(batch, fcs, w, q, a, b)
    ensures var plan := PlanOf(batch, fcs, w);
            var blocks := OutcomeOf(batch, plan, q).blocks;
            && |blocks| == |batch.attrs| && |q.rebuilt| == |blocks| - b
            && (forall i :: 0 <= i < b ==> blocks[i] == plan[i].block)
            && (forall i :: b <= i < |blocks| ==> blocks[i] == PayloadInfo(q.rebuilt[i - b]))
  {
    var plan := PlanOf(batch, fcs, w);
    KeptShape(plan, b);
    RebuiltCount(batch.attrs, b, if a < b then plan[b - 1].block.info else fcs.safe, q.rebuilt);
  }

  lemma BlockDescribes(batch: Batch, fcs: Fcs, w: World, q: Progress, a: nat, b: nat, i: nat)
    requires Numbered(w.chain) && Shaped(PlanOf(batch, fcs, w), a, b) && Executed(batch, fcs, w, q, a, b)
    requires b == FirstRebuild(batch.attrs, w.chain, fcs.finalized.number, 0) && i < |batch.attrs|
    requires |q.rebuilt| == |batch.attrs| - b
    ensures i < b ==> Describes(batch.attrs[i], PlanOf(batch, fcs, w)[i].block)
    ensures b <= i ==> Describes(batch.attrs[i], PayloadInfo(q.rebuilt[i - b]))
  {
    if i < b {
      KeptBlock(batch.attrs, w.chain, fcs.finalized.number, i);
    } else {
      RebuiltLinks(batch.attrs, b, if a < b then PlanOf(batch, fcs, w)[b - 1].block.info else fcs.safe, q.rebuilt, i - b);
    }
  }

  lemma AllDescribe(batch: Batch, fcs: Fcs, w: World, q: Progress, a: nat, b: nat)
    requires Numbered(w.chain) && Shaped(PlanOf(batch, fcs, w), a, b) && Executed(batch, fcs, w, q, a, b)
    requires b == FirstRebuild(batch.attrs, w.chain, fcs.finalized.number, 0)
    ensures var blocks := OutcomeOf(batch, PlanOf(batch, fcs, w), q).blocks;
            |blocks| == |batch.attrs| && forall i :: 0 <= i < |blocks| ==> Describes(batch.attrs[i], blocks[i])
  {
    var blocks := OutcomeOf(batch, PlanOf(batch, fcs, w), q).blocks;
    BlocksAre(batch, fcs, w, q, a, b);
    forall i | 0 <= i < |blocks|
      ensures Describes(batch.attrs[i], blocks[i])
    {
      BlockDescribes(batch, fcs, w, q, a, b, i);
    }
  }

  /** The last block is the head once the head moved, and the safe block once it was not skipped. */
  lemma LastBlock(batch: Batch, fcs: Fcs, w: World, q: Progress, a: nat, b: nat)
    requires Shaped(PlanOf(batch, fcs, w), a, b) && Executed(batch, fcs, w, q, a, b)
    ensures var blocks := OutcomeOf(batch, PlanOf(batch, fcs, w), q).blocks;
            && |blocks| == |batch.attrs|
            && (q.headMoved ==> blocks != [] && blocks[|blocks| - 1].info == q.fcs.head)
            && (blocks != [] && !PlanOf(batch, fcs, w)[|blocks| - 1].Skip? ==> blocks[|blocks| - 1].info == q.fcs.safe)
  {
    BlocksAre(batch, fcs, w, q, a, b);
  }

  /** What a completed attempt means: the frontier held and the execution went through. */
  lemma CompletedParts(batch: Batch, fcs: Fcs, w: World)
    requires Reconcile(batch, fcs, w).1.Completed?
    ensures var (p, attempt) := Reconcile(batch, fcs, w);
            && CheckFrontier(w, fcs.safe).None? && Execute(batch, fcs, w) == Going(p)
            && attempt.outcome == OutcomeOf(batch, PlanOf(batch, fcs, w), p)
  {
  }

  /**
   A completed attempt is faithful: whatever the Engine answered, it persists exactly one block
   per derived attribute, in order, with its number and its L1 messages. If the head moved, the
   last of them is the Engine's head, and once any block was not skipped it is the safe block too.
   */
  lemma CompletedIsFaithful(batch: Batch, fcs: Fcs, w: World)
    requires Legal(batch, fcs, w) && Reconcile(batch, fcs, w).1.Completed?
    ensures var (p, attempt) := Reconcile(batch, fcs, w);
            var blocks := attempt.outcome.blocks;
            && |blocks| == |batch.attrs|
            && (forall i :: 0 <= i < |blocks| ==> Describes(batch.attrs[i], blocks[i]))
            && (attempt.outcome.headMoved ==> blocks != [] && blocks[|blocks| - 1].info == p.fcs.head)
            && (blocks != [] && !PlanOf(batch, fcs, w)[|blocks| - 1].Skip? ==> blocks[|blocks| - 1].info == p.fcs.safe)
  {
    CompletedParts(batch, fcs, w);
    ExecutedIsFaithful(batch, fcs, w, Reconcile(batch, fcs, w).0);
  }

  lemma ExecutedIsFaithful(batch: Batch, fcs: Fcs, w: World, q: Progress)
    requires Legal(batch, fcs, w) && Execute(batch, fcs, w) == Going(q)
    ensures var blocks := OutcomeOf(batch, PlanOf(batch, fcs, w), q).blocks;
            && |blocks| == |batch.attrs|
            && (forall i :: 0 <= i < |blocks| ==> Describes(batch.attrs[i], blocks[i]))
            && (q.headMoved ==> blocks != [] && blocks[|blocks| - 1].info == q.fcs.head)
            && (blocks != [] && !PlanOf(batch, fcs, w)[|blocks| - 1].Skip? ==> blocks[|blocks| - 1].info == q.fcs.safe)
  {
    var a, b := ExecuteSound(batch, fcs, w);
    AllDescribe(batch, fcs, w, q, a, b);
    LastBlock(batch, fcs, w, q, a, b);
  }

  /**
   The forkchoice state after a batch whose last block is `last`. A batch at or below finality
   changes nothing. Otherwise `last` is safe, and finalized if that is the target. It is the head
   if anything was rebuilt or the head was not above it: without a rebuild the head never falls.
   */
  predicate Moved(before: Fcs, after: Fcs, last: BlockInfo, target: BatchStatus, rebuilt: bool) {
    if last.number <= before.finalized.number then after == before && !rebuilt
    else
      && after.safe == last
      && after.finalized == (if target == BatchStatus.Finalized then last else before.finalized)
      && after.head == (if !rebuilt && before.head.number > last.number then before.head else last)
  }

  /**
   Where a completed attempt leaves the Engine, whatever it answered. The head is reported as moved
   exactly when a block was rebuilt or the head is another block.
   */
  lemma EngineAfterAttempt(batch: Batch, fcs: Fcs, w: World)
    requires Legal(batch, fcs, w) && Reconcile(batch, fcs, w).1.Completed?
    ensures var (p, attempt) := Reconcile(batch, fcs, w);
            var blocks := attempt.outcome.blocks;
            && (attempt.outcome.headMoved <==> p.rebuilt != [] || p.fcs.head != fcs.head)
            && (p.rebuilt == [] <==> FirstRebuild(batch.attrs, w.chain, fcs.finalized.number, 0) == |batch.attrs|)
            && (blocks == [] ==> p.fcs == fcs)
            && (blocks != [] ==> Moved(fcs, p.fcs, blocks[|blocks| - 1].info, batch.target, p.rebuilt != []))
  {
    CompletedParts(batch, fcs, w);
    EngineAfterExecution(batch, fcs, w, Reconcile(batch, fcs, w).0);
  }

  lemma EngineAfterExecution(batch: Batch, fcs: Fcs, w: World, q: Progress)
    requires Legal(batch, fcs, w) && Execute(batch, fcs, w) == Going(q)
    ensures var blocks := OutcomeOf(batch, PlanOf(batch, fcs, w), q).blocks;
            && (q.headMoved <==> q.rebuilt != [] || q.fcs.head != fcs.head)
            && (q.rebuilt == [] <==> FirstRebuild(batch.attrs, w.chain, fcs.finalized.number, 0) == |batch.attrs|)
            && (blocks == [] ==> q.fcs == fcs)
            && (blocks != [] ==> Moved(fcs, q.fcs, blocks[|blocks| - 1].info, batch.target, q.rebuilt != []))
  {
    var a, b := ExecuteSound(batch, fcs, w);
    ExecutedMoves(batch, fcs, w, q, a, b);
  }

  lemma ExecutedMoves(batch: Batch, fcs: Fcs, w: World, q: Progress, a: nat, b: nat)
    requires Legal(batch, fcs, w) && Shaped(PlanOf(batch, fcs, w), a, b) && Executed(batch, fcs, w, q, a, b)
    requires b == FirstRebuild(batch.attrs, w.chain, fcs.finalized.number, 0)
    ensures var blocks := OutcomeOf(batch, PlanOf(batch, fcs, w), q).blocks;
            && (q.headMoved <==> q.rebuilt != [] || q.fcs.head != fcs.head)
            && (q.rebuilt == [] <==> b == |batch.attrs|)
            && (blocks == [] ==> q.fcs == fcs)
            && (blocks != [] ==> Moved(fcs, q.fcs, blocks[|blocks| - 1].info, batch.target, q.rebuilt != []))
  {
    BlocksAre(batch, fcs, w, q, a, b);
    var blocks := OutcomeOf(batch, PlanOf(batch, fcs, w), q).blocks;
    if q.rebuilt != [] {
      MovedByRebuild(batch, fcs, w, q, a, b, blocks[|blocks| - 1].info);
    } else if b > 0 {
      MovedByUpdate(batch, fcs, w, q, a, b);
    }
  }

  lemma MovedByRebuild(batch: Batch, fcs: Fcs, w: World, q: Progress, a: nat, b: nat, last: BlockInfo)
    requires Legal(batch, fcs, w) && Shaped(PlanOf(batch, fcs, w), a, b) && Executed(batch, fcs, w, q, a, b)
    requires q.rebuilt != [] && last == PayloadInfo(q.rebuilt[|q.rebuilt| - 1]).info
    requires b == FirstRebuild(batch.attrs, w.chain, fcs.finalized.number, 0)
    ensures Moved(fcs, q.fcs, last, batch.target, true)
  {
    if a < b {
      assert PlanOf(batch, fcs, w)[b - 1] == Compare(batch.attrs, w.chain, fcs.finalized.number, b - 1);
      KeptBlock(batch.attrs, w.chain, fcs.finalized.number, b - 1);
    }
    RebuiltAboveSafe(batch, fcs, w, q, a, b);
  }

  lemma MovedByUpdate(batch: Batch, fcs: Fcs, w: World, q: Progress, a: nat, b: nat)
    requires Legal(batch, fcs, w) && Shaped(PlanOf(batch, fcs, w), a, b) && Executed(batch, fcs, w, q, a, b)
    requires q.rebuilt == [] && b > 0 && b == FirstRebuild(batch.attrs, w.chain, fcs.finalized.number, 0)
    ensures Moved(fcs, q.fcs, PlanOf(batch, fcs, w)[b - 1].block.info, batch.target, false)
    ensures q.headMoved <==> q.fcs.head != fcs.head
  {
    assert PlanOf(batch, fcs, w)[b - 1] == Compare(batch.attrs, w.chain, fcs.finalized.number, b - 1);
    KeptBlock(batch.attrs, w.chain, fcs.finalized.number, b - 1);
  }

  /** A rebuilt block is above the finalized one. */
  lemma RebuiltAboveSafe(batch: Batch, fcs: Fcs, w: World, q: Progress, a: nat, b: nat)
    requires Legal(batch, fcs, w) && Shaped(PlanOf(batch, fcs, w), a, b) && Executed(batch, fcs, w, q, a, b)
    requires q.rebuilt != [] && (a < b ==> PlanOf(batch, fcs, w)[b - 1].block.info.number > fcs.finalized.number)
    ensures b + |q.rebuilt| == |batch.attrs| && q.rebuilt[|q.rebuilt| - 1].number > fcs.finalized.number
  {
    var parent := if a < b then PlanOf(batch, fcs, w)[b - 1].block.info else fcs.safe;
    RebuiltLinks(batch.attrs, b, parent, q.rebuilt, 0);
    RebuiltLinks(batch.attrs, b, parent, q.rebuilt, |q.rebuilt| - 1);
  }

  predicate StartsAboveDatabaseSafe(batch: Batch, w: World) {
    && batch.attrs != [] && w.dbSafe.Some?
    && 0 < w.dbSafe.value.number && batch.attrs[0].number == w.dbSafe.value.number + 1
  }

  /**
   The rebuilt suffix is one chain: in a completed attempt the blocks from the first rebuild on
   are linked by parent hash, starting at the updated block before them, or at the safe block
   when there was none. A batch that starts right above the database's safe block is rebuilt on
   exactly that block.
   */
  lemma RebuiltSuffixIsOneChain(batch: Batch, fcs: Fcs, w: World) returns (b: nat, parent: BlockInfo)
    requires Legal(batch, fcs, w) && Reconcile(batch, fcs, w).1.Completed?
    ensures b == FirstRebuild(batch.attrs, w.chain, fcs.finalized.number, 0)
    ensures var (p, attempt) := Reconcile(batch, fcs, w);
            var blocks := attempt.outcome.blocks;
            && |blocks| == |batch.attrs| == b + |p.rebuilt|
            && (forall i :: 0 <= i < |p.rebuilt| ==>
                  && PayloadInfo(p.rebuilt[i]) == blocks[b + i]
                  && p.rebuilt[i].parentHash == if i == 0 then parent.hash else blocks[b + i - 1].info.hash)
            && (b > 0 && PlanOf(batch, fcs, w)[b - 1].UpdateTo? ==> parent == blocks[b - 1].info)
            && (b == 0 || PlanOf(batch, fcs, w)[b - 1].Skip? ==> parent == fcs.safe)
            && (StartsAboveDatabaseSafe(batch, w) && b == 0 ==> parent == w.dbSafe.value)
  {
    CompletedParts(batch, fcs, w);
    b, parent := ExecutedSuffix(batch, fcs, w, Reconcile(batch, fcs, w).0);
    if StartsAboveDatabaseSafe(batch, w) && b == 0 {
      RebuiltOnDatabaseSafe(batch, fcs, w);
    }
  }

  lemma ExecutedSuffix(batch: Batch, fcs: Fcs, w: World, q: Progress) returns (b: nat, parent: BlockInfo)
    requires Legal(batch, fcs, w) && Execute(batch, fcs, w) == Going(q)
    ensures b == FirstRebuild(batch.attrs, w.chain, fcs.finalized.number, 0)
    ensures var blocks := OutcomeOf(batch, PlanOf(batch, fcs, w), q).blocks;
            && |blocks| == |batch.attrs| == b + |q.rebuilt|
            && (forall i :: 0 <= i < |q.rebuilt| ==>
                  && PayloadInfo(q.rebuilt[i]) == blocks[b + i]
                  && q.rebuilt[i].parentHash == if i == 0 then parent.hash else blocks[b + i - 1].info.hash)
            && (b > 0 && PlanOf(batch, fcs, w)[b - 1].UpdateTo? ==> parent == blocks[b - 1].info)
            && (b == 0 || PlanOf(batch, fcs, w)[b - 1].Skip? ==> parent == fcs.safe)
  {
    var a;
    a, b := ExecuteSound(batch, fcs, w);
    BlocksAre(batch, fcs, w, q, a, b);
    parent := if a < b then PlanOf(batch, fcs, w)[b - 1].block.info else fcs.safe;
    LinkedSuffix(batch.attrs, b, parent, q.rebuilt, OutcomeOf(batch, PlanOf(batch, fcs, w), q).blocks);
  }

  lemma LinkedSuffix(attrs: seq<DerivedAttributes>, b: nat, parent: BlockInfo, built: seq<Payload>, blocks: seq<L2BlockInfo>)
    requires RebuiltChain(attrs, b, parent, built) && b <= |blocks| == b + |built|
    requires forall i :: b <= i < |blocks| ==> blocks[i] == PayloadInfo(built[i - b])
    ensures forall i :: 0 <= i < |built| ==>
              && PayloadInfo(built[i]) == blocks[b + i]
              && built[i].parentHash == if i == 0 then parent.hash else blocks[b + i - 1].info.hash
  {
    forall i | 0 <= i < |built|
      ensures PayloadInfo(built[i]) == blocks[b + i]
      ensures built[i].parentHash == if i == 0 then parent.hash else blocks[b + i - 1].info.hash
    {
      RebuiltLinks(attrs, b, parent, built, i);
      assert i > 0 ==> blocks[b + i - 1] == PayloadInfo(built[i - 1]);
    }
  }

  lemma RebuiltOnDatabaseSafe(batch: Batch, fcs: Fcs, w: World)
    requires Legal(batch, fcs, w) && Reconcile(batch, fcs, w).1.Completed? && StartsAboveDatabaseSafe(batch, w)
    requires FirstRebuild(batch.attrs, w.chain, fcs.finalized.number, 0) == 0
    ensures fcs.safe == w.dbSafe.value
  {
    CompletedParts(batch, fcs, w);
    FirstRebuildNeedsParent(batch, fcs, w);
  }

  /** A batch rebuilt from its first block on only gets through on top of the safe block. */
  lemma FirstRebuildNeedsParent(batch: Batch, fcs: Fcs, w: World)
    requires Legal(batch, fcs, w) && batch.attrs != [] && Execute(batch, fcs, w).Going?
    requires FirstRebuild(batch.attrs, w.chain, fcs.finalized.number, 0) == 0
    ensures fcs.safe.number + 1 == batch.attrs[0].number
  {
    var a, b := Phases(batch, fcs, w);
    RebuildsStep(batch.attrs, 0, batch.target, Start(fcs), w.client);
    var _ := RebuildSound(batch.attrs[0], 0, batch.target, Start(fcs), w.client);
  }

  // ---- Collapsing preserves meaning ----

  /**
   A client that answers VALID to everything: an update carries no payload id or any, a build
   carries one, in general a new one each time. What it builds does not depend on when it is asked.
   */
  ghost predicate Cooperative(client: Client) {
    && (forall n, kind :: client.fcu(n, kind).Answer? && client.fcu(n, kind).status == VALID)
    && (forall n :: client.fcu(n, BuildFcu).payloadId.Some?)
    && (forall n :: client.newPayload(n) == Some(VALID))
    && (forall n, i, parent :: client.payload(n, i, parent) == client.payload(0, i, parent))
  }

  /** Everything but the number of calls. */
  predicate SameProgress(p: Progress, q: Progress) {
    p.(calls := 0) == q.(calls := 0)
  }

  predicate SameOutcome(r: Outcome, s: Outcome) {
    && SameProgress(r.progress, s.progress)
    && (r.Stopped? <==> s.Stopped?) && (r.Stopped? ==> r.failure == s.failure)
  }

  lemma BuildIgnoresCalls(d: DerivedAttributes, index: nat, fcs: Fcs, n: nat, m: nat, client: Client)
    requires Cooperative(client)
    ensures Build(d, index, fcs, n, client).(calls := 0) == Build(d, index, fcs, m, client).(calls := 0)
  {
    assert client.fcu(n, BuildFcu).payloadId.Some? && client.fcu(m, BuildFcu).payloadId.Some?;
    var calls := CallsMade(Perform(fcs, BuildPayload(Some(fcs.safe)), client.fcu(n, BuildFcu)).1);
    assert client.payload(n + calls, index, fcs.safe) == client.payload(m + calls, index, fcs.safe);
  }

  lemma ImportIgnoresCalls(payload: Payload, target: BatchStatus, p: Progress, q: Progress, client: Client)
    requires Cooperative(client) && SameProgress(p, q)
    ensures SameOutcome(RunImport(payload, target, p, client), RunImport(payload, target, q, client))
  {
    assert client.newPayload(p.calls) == client.newPayload(q.calls);
    assert client.fcu(p.calls + 1, Fcu).status == client.fcu(q.calls + 1, Fcu).status;
  }

  lemma ActionIgnoresCalls(action: Action, attrs: seq<DerivedAttributes>, target: BatchStatus, p: Progress, q: Progress, client: Client)
    requires Cooperative(client) && SameProgress(p, q) && (action.Rebuild? ==> action.index < |attrs|)
    ensures SameOutcome(RunAction(action, attrs, target, p, client), RunAction(action, attrs, target, q, client))
  {
    match action {
      case Skip(_) =>
      case UpdateTo(_) =>
        assert client.fcu(p.calls, Fcu).status == client.fcu(q.calls, Fcu).status;
      case Rebuild(i) =>
        BuildIgnoresCalls(attrs[i], i, p.fcs, p.calls, q.calls, client);
        var b, c := Build(attrs[i], i, p.fcs, p.calls, client), Build(attrs[i], i, q.fcs, q.calls, client);
        if b.Got? {
          ImportIgnoresCalls(b.payload, target, p.(calls := b.calls), q.(calls := c.calls), client);
        }
    }
  }

  lemma {:induction false} RunIgnoresCalls(actions: seq<Action>, attrs: seq<DerivedAttributes>, target: BatchStatus, p: Progress, q: Progress, client: Client)
    requires Cooperative(client) && SameProgress(p, q) && InRange(actions, |attrs|)
    ensures SameOutcome(RunActions(actions, attrs, target, p, client), RunActions(actions, attrs, target, q, client))
    decreases |actions|
  {
    if actions != [] {
      ActionIgnoresCalls(actions[0], attrs, target, p, q, client);
      var r, s := RunAction(actions[0], attrs, target, p, client), RunAction(actions[0], attrs, target, q, client);
      if r.Going? {
        RunIgnoresCalls(actions[1..], attrs, target, r.progress, s.progress, client);
      }
    }
  }

  /** Two updates in a row end where the second one alone ends. */
  lemma TwoUpdates(u: BlockInfo, v: BlockInfo, target: BatchStatus, p: Progress, client: Client)
    requires Cooperative(client) && WellFormed(p.fcs) && p.fcs.finalized.number < u.number < v.number
    ensures var first := RunUpdate(u, target, p, client);
            && first.Going? && WellFormed(first.progress.fcs) && first.progress.fcs.finalized.number < v.number
            && RunUpdate(v, target, first.progress, client).Going? && RunUpdate(v, target, p, client).Going?
            && SameOutcome(RunUpdate(v, target, first.progress, client), RunUpdate(v, target, p, client))
  {
    UpdateSound(u, target, p, client);
    UpdateSound(v, target, p, client);
    UpdateSound(v, target, RunUpdate(u, target, p, client).progress, client);
  }

  /** A run of updates, numbered upwards from above `low`. */
  ghost predicate UpdatesAbove(updates: seq<Action>, low: nat) {
    && (forall i :: 0 <= i < |updates| ==> updates[i].UpdateTo? && updates[i].block.info.number > low)
    && (forall i, j :: 0 <= i < j < |updates| ==> updates[i].block.info.number < updates[j].block.info.number)
  }

  lemma {:induction false} UpdatesCollapse(updates: seq<Action>, rest: seq<Action>, attrs: seq<DerivedAttributes>, target: BatchStatus, p: Progress, client: Client)
    requires Cooperative(client) && WellFormed(p.fcs) && updates != [] && UpdatesAbove(updates, p.fcs.finalized.number)
    requires InRange(rest, |attrs|)
    ensures InRange(updates + rest, |attrs|) && InRange([updates[|updates| - 1]] + rest, |attrs|)
    ensures SameOutcome(RunActions(updates + rest, attrs, target, p, client),
                        RunActions([updates[|updates| - 1]] + rest, attrs, target, p, client))
    decreases |updates|
  {
    var last := updates[|updates| - 1];
    JoinInRange(updates, rest, |attrs|);
    JoinInRange([last], rest, |attrs|);
    if |updates| == 1 {
      assert updates == [last];
      RunIgnoresCalls(updates + rest, attrs, target, p, p, client);
    } else {
      var tail := updates[2..] + rest;
      assert updates + rest == [updates[0], updates[1]] + tail && updates[1..] + rest == [updates[1]] + tail;
      FirstUpdateIsIdle(updates[0], updates[1], tail, attrs, target, p, client);
      UpdatesCollapse(updates[1..], rest, attrs, target, p, client);
    }
  }

  lemma JoinInRange(a: seq<Action>, b: seq<Action>, n: nat)
    requires InRange(a, n) && InRange(b, n)
    ensures InRange(a + b, n)
  {
  }

  /** An update that a higher one follows makes no difference. */
  lemma FirstUpdateIsIdle(u: Action, v: Action, tail: seq<Action>, attrs: seq<DerivedAttributes>, target: BatchStatus, p: Progress, client: Client)
    requires Cooperative(client) && WellFormed(p.fcs) && u.UpdateTo? && v.UpdateTo? && InRange(tail, |attrs|)
    requires p.fcs.finalized.number < u.block.info.number < v.block.info.number
    ensures SameOutcome(RunActions([u, v] + tail, attrs, target, p, client), RunActions([v] + tail, attrs, target, p, client))
  {
    TwoUpdates(u.block.info, v.block.info, target, p, client);
    assert ([u, v] + tail)[1..] == [v] + tail && ([v] + tail)[1..] == tail;
    var two := RunUpdate(v.block.info, target, RunUpdate(u.block.info, target, p, client).progress, client).progress;
    var one := RunUpdate(v.block.info, target, p, client).progress;
    RunIgnoresCalls(tail, attrs, target, two, one, client);
  }

  /** The plan without its skips. */
  function WithoutSkips(actions: seq<Action>): (r: seq<Action>)
    ensures forall x :: x in r ==> x in actions
  {
    if actions == [] then []
    else (if actions[0].Skip? then [] else [actions[0]]) + WithoutSkips(actions[1..])
  }

  lemma {:induction false} WithoutSkipsShape(actions: seq<Action>, a: nat)
    requires a <= |actions| && (forall i :: 0 <= i < a ==> actions[i].Skip?)
    requires forall i :: a <= i < |actions| ==> !actions[i].Skip?
    ensures WithoutSkips(actions) == actions[a..]
    decreases |actions|
  {
    if actions != [] {
      WithoutSkipsShape(actions[1..], if a == 0 then 0 else a - 1);
    }
  }

  lemma PlannedUpdates(plan: seq<Action>, attrs: seq<DerivedAttributes>, a: nat, b: nat, finalized: nat)
    requires Shaped(plan, a, b) && |plan| == |attrs| && Ascending(attrs)
    requires forall i :: a <= i < b ==> plan[i].block.info.number == attrs[i].number && attrs[i].number > finalized
    ensures UpdatesAbove(plan[a..b], finalized)
  {
  }

  lemma PlanInRange(plan: seq<Action>, b: nat, n: nat)
    requires InRange(plan, n) && b <= |plan|
    ensures InRange(plan[b..], n)
  {
  }

  lemma BothForms(plan: seq<Action>, a: nat, b: nat)
    requires Shaped(plan, a, b)
    ensures a == b ==> Collapsed(plan) == WithoutSkips(plan) == plan[b..]
    ensures a < b ==> WithoutSkips(plan) == plan[a..b] + plan[b..]
    ensures a < b ==> Collapsed(plan) == [plan[a..b][|plan[a..b]| - 1]] + plan[b..]
  {
    CollapsedShape(plan, a, b);
    WithoutSkipsShape(plan, a);
    SplitAt(plan, a, b);
  }

  lemma SplitAt<T>(s: seq<T>, a: nat, b: nat)
    requires a <= b <= |s|
    ensures s[a..] == s[a..b] + s[b..]
  {
  }

  /** The same, for any shaped list of actions. */
  lemma CollapsedRun(plan: seq<Action>, a: nat, b: nat, attrs: seq<DerivedAttributes>, target: BatchStatus, p: Progress, client: Client)
    requires Cooperative(client) && WellFormed(p.fcs) && Shaped(plan, a, b) && InRange(plan, |attrs|)
    requires UpdatesAbove(plan[a..b], p.fcs.finalized.number)
    ensures SameOutcome(RunActions(Collapsed(plan), attrs, target, p, client),
                        RunActions(WithoutSkips(plan), attrs, target, p, client))
  {
    BothForms(plan, a, b);
    PlanInRange(plan, b, |attrs|);
    if a < b {
      UpdatesCollapse(plan[a..b], plan[b..], attrs, target, p, client);
    } else {
      RunIgnoresCalls(plan[b..], attrs, target, p, p, client);
    }
  }

  /**
   Collapsing preserves meaning: against a client that accepts everything, running the collapsed
   plan ends exactly like running every planned action in turn with Skip as a no-op: same head,
   safe and finalized blocks, same head-moved flag, same rebuilt blocks, same verdict.
   */
  lemma CollapsingPreservesMeaning(batch: Batch, fcs: Fcs, w: World)
    requires Legal(batch, fcs, w) && Cooperative(w.client)
    ensures SameOutcome(Execute(batch, fcs, w),
                        RunActions(WithoutSkips(PlanOf(batch, fcs, w)), batch.attrs, batch.target, Start(fcs), w.client))
  {
    var a, b := PlanShape(batch.attrs, w.chain, fcs.finalized.number);
    PlannedUpdates(PlanOf(batch, fcs, w), batch.attrs, a, b, fcs.finalized.number);
    CollapsedRun(PlanOf(batch, fcs, w), a, b, batch.attrs, batch.target, Start(fcs), w.client);
  }
}
