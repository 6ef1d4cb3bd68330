/**
 Where the pipeline's guarantees end: the request that is never derived and keeps the gate shut,
 the batch that is committed again after its revert, and the unwind that changes which batch a
 queued request is answered with.
 */
module SystemLimits {
  import opened Primitives
  import opened BatchTables
  import opened Requests
  import opened System
  import Derivation
  import ForkchoiceEngine
  import HeldRuns
  import Pipeline

  // ---- The request that is never derived ----

  ghost predicate NoUnwind(events: seq<Event>) {
    forall i :: 0 <= i < |events| ==> !(events[i].HeldEvent? && events[i].heldEvent.Unwind?)
  }

  /** How many results the worker has sent. */
  function Sent(s: Node): nat {
    |s.pipe.yielded| + |s.pipe.state.outbox|
  }

  ghost predicate CanDerive(s: Node, index: nat) {
    Derivable(s.env, s.held.rows, s.queue, index)
  }

  /** The front request has no result yet and cannot be derived from what is stored. */
  ghost predicate Stuck(s: Node) {
    var fs := s.pipe.state.futures;
    |fs| > 0 && !fs[0].fate.Ready? && !CanDerive(s, fs[0].request.info.index)
  }

  lemma FrontIsPending(s: Node)
    requires InStep(s) && |s.pipe.state.futures| > 0
    ensures s.pipe.state.len > 0
  {
    var p := s.pipe;
    assert |p.pushed| == |p.yielded| + |p.state.outbox| + |p.state.futures| + |p.state.inbox|;
  }

  lemma PipeStaysStuck(s: Node, e: Pipeline.Event<Result>)
    requires InStep(s) && Stuck(s) && Enabled(s, PipeEvent(e))
    ensures var s' := After(s, PipeEvent(e)); Stuck(s') && Sent(s') == Sent(s)
  {
    if e.Settled? && e.fate.Ready? {
      ResolvedIsDerivable(s.env, s.held.rows, s.queue, s.pipe.state.futures[e.i].request, e.fate.result);
    }
  }

  /** What can be derived depends on which rows are live and on the queue alone. */
  lemma SameDerivable(env: Env, rows: map<Hash, Row>, rows': map<Hash, Row>, queue: Queue, index: nat)
    requires forall h :: Live(rows', h, index) <==> Live(rows, h, index)
    ensures Derivable(env, rows', queue, index) <==> Derivable(env, rows, queue, index)
  {
  }

  lemma HeldStaysStuck(s: Node, e: HeldRuns.Event)
    requires InStep(s) && Stuck(s) && Enabled(s, HeldEvent(e)) && !e.Unwind?
    ensures var s' := After(s, HeldEvent(e)); Stuck(s') && Sent(s') == Sent(s)
  {
    FrontIsPending(s);
    var index := s.pipe.state.futures[0].request.info.index;
    forall h
      ensures Live(After(s, HeldEvent(e)).held.rows, h, index) <==> Live(s.held.rows, h, index)
    {
      HeldKeepsLive(s.held, e, h, index);
    }
    SameDerivable(s.env, s.held.rows, After(s, HeldEvent(e)).held.rows, s.queue, index);
  }

  lemma StepStaysStuck(s: Node, e: Event)
    requires InStep(s) && Stuck(s) && Enabled(s, e) && !(e.HeldEvent? && e.heldEvent.Unwind?)
    ensures var s' := After(s, e); Stuck(s') && Sent(s') == Sent(s)
  {
    FrontIsPending(s);
    match e {
      case PipeEvent(p) => PipeStaysStuck(s, p);
      case TakeBatch => TakeKeepsAligned(s);
      case HeldEvent(n) => HeldStaysStuck(s, n);
    }
  }

  /** Without an unwind the worker sends nothing more and the gate never opens again. */
  lemma {:induction false} StuckForever(s: Node, events: seq<Event>)
    requires InStep(s) && Stuck(s) && EnabledRun(s, events) && NoUnwind(events)
    ensures var r := AfterAll(s, events); Stuck(r) && Sent(r) == Sent(s) && !NoPendingWork(r)
    decreases |events|
  {
    if events == [] {
      FrontIsPending(s);
    } else {
      StepKeepsInStep(s, events[0]);
      StepStaysStuck(s, events[0]);
      StuckForever(After(s, events[0]), events[1..]);
    }
  }

  /** Some run without an unwind sends the front request's result. */
  ghost predicate CanSend(s: Node) {
    exists events :: NoUnwind(events) && EnabledRun(s, events) && Sent(AfterAll(s, events)) > Sent(s)
  }

  lemma OneStep(s: Node, e: Event, rest: seq<Event>)
    requires Enabled(s, e) && EnabledRun(After(s, e), rest)
    ensures EnabledRun(s, [e] + rest) && AfterAll(s, [e] + rest) == AfterAll(After(s, e), rest)
  {
    assert ([e] + rest)[0] == e && ([e] + rest)[1..] == rest;
  }

  lemma SendReady(s: Node)
    requires |s.pipe.state.futures| > 0 && s.pipe.state.futures[0].fate.Ready?
    ensures CanSend(s)
  {
    var e := PipeEvent(Pipeline.Resolved);
    OneStep(s, e, []);
    assert NoUnwind([e] + []) && Sent(AfterAll(s, [e] + [])) > Sent(s);
  }

  lemma SendAfter(s: Node, e: Event)
    requires Enabled(s, e) && !(e.HeldEvent? && e.heldEvent.Unwind?) && Sent(After(s, e)) == Sent(s) && CanSend(After(s, e))
    ensures CanSend(s)
  {
    var rest :| NoUnwind(rest) && EnabledRun(After(s, e), rest) && Sent(AfterAll(After(s, e), rest)) > Sent(After(s, e));
    OneStep(s, e, rest);
    assert NoUnwind([e] + rest) && Sent(AfterAll(s, [e] + rest)) > Sent(s);
  }

  lemma SendRunning(s: Node)
    requires InStep(s) && |s.pipe.state.futures| > 0 && s.pipe.state.futures[0].fate.Running?
    requires CanDerive(s, s.pipe.state.futures[0].request.info.index)
    ensures CanSend(s)
  {
    var result := DerivableResolves(s.env, s.held.rows, s.queue, s.pipe.state.futures[0].request);
    var e := PipeEvent(Pipeline.Settled(0, Pipeline.Ready(result)));
    assert Enabled(s, e);
    SendReady(After(s, e));
    SendAfter(s, e);
  }

  /**
   The worker can send the front request's result without an unwind if and only if it has it
   already, or a live row is stored under the request's index whose commitment decodes, holds only
   L2 transactions and has every L1 message it claims stored.
   */
  lemma SendsExactlyWhenDerivable(s: Node)
    requires InStep(s) && |s.pipe.state.futures| > 0
    ensures var front := s.pipe.state.futures[0];
            CanSend(s) <==> front.fate.Ready? || CanDerive(s, front.request.info.index)
  {
    var front := s.pipe.state.futures[0];
    if Stuck(s) {
      forall events | NoUnwind(events) && EnabledRun(s, events)
        ensures Sent(AfterAll(s, events)) == Sent(s)
      {
        StuckForever(s, events);
      }
    } else if front.fate.Ready? {
      SendReady(s);
    } else if front.fate.Running? {
      SendRunning(s);
    } else {
      var e := PipeEvent(Pipeline.Resolved);
      StepKeepsInStep(s, e);
      SendRunning(After(s, e));
      SendAfter(s, e);
    }
  }

  // ---- Committing a batch ----

  /** A request pushed into the idle pipeline and taken by the worker. */
  ghost function Requested(s: Node, request: Pipeline.Request): Node {
    After(After(s, PipeEvent(Pipeline.Pushed(request))), PipeEvent(Pipeline.Received))
  }

  lemma RequestedInStep(s: Node, request: Pipeline.Request)
    requires InStep(s) && NoPendingWork(s)
    ensures InStep(Requested(s, request)) && Requested(s, request) == s.(pipe := Requested(s, request).pipe)
    ensures Requested(s, request).pipe.state.futures == [Pipeline.InFlight(request, Pipeline.Running)]
    ensures Requested(s, request).pipe.state.outbox == [] && Requested(s, request).pipe.pushed == s.pipe.pushed + [request]
  {
    EmptyPipe(s);
    var s1 := After(s, PipeEvent(Pipeline.Pushed(request)));
    StepKeepsInStep(s, PipeEvent(Pipeline.Pushed(request)));
    StepKeepsInStep(s1, PipeEvent(Pipeline.Received));
  }

  /** A batch commitment arrives, and its request is pushed and taken. */
  ghost function CommitAndRequest(s: Node, hash: Hash, index: nat, blockNumber: nat, target: BatchStatus): Node
    requires Commits(s, hash, index, blockNumber)
  {
    Requested(After(s, HeldEvent(HeldRuns.TableChange(Commit(hash, index, blockNumber)))),
              Pipeline.Request(BatchInfo(index, hash), target))
  }

  /** The gate is open and L1 commits the index only after reverting its other commitments. */
  ghost predicate Commits(s: Node, hash: Hash, index: nat, blockNumber: nat) {
    InStep(s) && NoPendingWork(s) && !s.held.halted && InL1Order(s.held.rows, Commit(hash, index, blockNumber))
  }

  /** After a commitment no other hash is live under its index, and this one is unless it was reverted. */
  lemma CommitIsLiveExactly(rows: map<Hash, Row>, hash: Hash, index: nat, blockNumber: nat, h: Hash)
    requires InL1Order(rows, Commit(hash, index, blockNumber))
    ensures Live(Changed(rows, Commit(hash, index, blockNumber)), h, index) <==>
            h == hash && (hash in rows ==> rows[hash].revertedAt.None?)
  {
  }

  /**
   For every state of the node: a batch that is committed through the open gate can be sent if and
   only if its hash was not stored as reverted before and it can be decoded with the messages stored.
   */
  lemma CommittedIsSentExactly(s: Node, hash: Hash, index: nat, blockNumber: nat, target: BatchStatus)
    requires Commits(s, hash, index, blockNumber)
    ensures CanSend(CommitAndRequest(s, hash, index, blockNumber, target)) <==>
            (hash in s.held.rows ==> s.held.rows[hash].revertedAt.None?) && Decodable(s.env, s.queue, hash)
  {
    var commit := HeldEvent(HeldRuns.TableChange(Commit(hash, index, blockNumber)));
    var s1, s2 := After(s, commit), CommitAndRequest(s, hash, index, blockNumber, target);
    StepKeepsInStep(s, commit);
    RequestedInStep(s1, Pipeline.Request(BatchInfo(index, hash), target));
    SendsExactlyWhenDerivable(s2);
    forall h
      ensures Live(s2.held.rows, h, index) <==> h == hash && (hash in s.held.rows ==> s.held.rows[hash].revertedAt.None?)
    {
      CommitIsLiveExactly(s.held.rows, hash, index, blockNumber, h);
    }
  }

  /** A batch committed again under its hash after its revert keeps the gate shut for good. */
  lemma RecommitShutsTheGate(s: Node, hash: Hash, index: nat, blockNumber: nat, target: BatchStatus, events: seq<Event>)
    requires Commits(s, hash, index, blockNumber) && hash in s.held.rows && s.held.rows[hash].revertedAt.Some?
    requires EnabledRun(CommitAndRequest(s, hash, index, blockNumber, target), events) && NoUnwind(events)
    ensures !NoPendingWork(AfterAll(CommitAndRequest(s, hash, index, blockNumber, target), events))
  {
    UndecodableShutsTheGate(s, hash, index, blockNumber, target, events);
  }

  /** So does one whose commitment does not decode or whose messages are not all stored. */
  lemma UndecodableShutsTheGate(s: Node, hash: Hash, index: nat, blockNumber: nat, target: BatchStatus, events: seq<Event>)
    requires Commits(s, hash, index, blockNumber)
    requires !(hash in s.held.rows ==> s.held.rows[hash].revertedAt.None?) || !Decodable(s.env, s.queue, hash)
    requires EnabledRun(CommitAndRequest(s, hash, index, blockNumber, target), events) && NoUnwind(events)
    ensures !NoPendingWork(AfterAll(CommitAndRequest(s, hash, index, blockNumber, target), events))
  {
    var commit := HeldEvent(HeldRuns.TableChange(Commit(hash, index, blockNumber)));
    var s2 := CommitAndRequest(s, hash, index, blockNumber, target);
    StepKeepsInStep(s, commit);
    RequestedInStep(After(s, commit), Pipeline.Request(BatchInfo(index, hash), target));
    CommittedIsSentExactly(s, hash, index, blockNumber, target);
    SendsExactlyWhenDerivable(s2);
    StuckForever(s2, events);
  }

  // ---- Concrete runs ----

  const START := ForkchoiceEngine.Fcs(BlockInfo(0, 9), BlockInfo(0, 9), BlockInfo(0, 9))

  const GENESIS_BATCH := Row(0, 0, None, None, BatchStatus.Finalized)

  /** A commitment with one empty block that claims this many L1 messages from index 33 on. */
  function Claiming(messages: nat): Commitment {
    Commitment([Derivation.BlockData(1, 0, 0, 0, messages, [])], Derivation.InitialIndex(33), [])
  }

  /** Two batches without L1 messages and one that claims two. */
  const L1 := Env(map[1 := Claiming(0), 2 := Claiming(0), 12 := Claiming(2)],
                  (h: Hash) => [L1_MESSAGE_TX_TYPE], (a: Hash, b: Hash) => a + b + 1, 0)

  /** Batch 1 was committed in block 5 and reverted in block 8. */
  const REVERTED: map<Hash, Row> := map[ZERO_HASH := GENESIS_BATCH, 1 := Row(1, 5, None, Some(8), BatchStatus.Reverted)]

  lemma L1IsLawful()
    ensures Lawful(L1)
  {
  }

  lemma FreshCommits(env: Env, rows: map<Hash, Row>, hash: Hash, index: nat, blockNumber: nat)
    requires Lawful(env) && Ordered(rows) && InL1Order(rows, Commit(hash, index, blockNumber))
    ensures Commits(Fresh(env, START, rows), hash, index, blockNumber)
  {
    FreshNodeInStep(env, START, rows);
  }

  lemma ClaimedTotal(n: nat)
    ensures Derivation.Total(Claiming(n).blocks) == n
  {
    assert Derivation.Offset(Claiming(n).blocks, 0) == 0;
  }

  /** Batches 1 and 2 need no messages; batch 12 needs message 33. */
  lemma DecodableExactly(queue: Queue)
    ensures Decodable(L1, queue, 1)
    ensures 33 !in queue ==> !Decodable(L1, queue, 12)
  {
    ClaimedTotal(0);
    ClaimedTotal(2);
    assert StartsAt(L1, queue, Claiming(0).cursor, 33);
  }

  /** Batch 1 is committed again in block 10. */
  lemma RecommitExample()
    ensures var s := Fresh(L1, START, REVERTED);
            Commits(s, 1, 1, 10) && Decodable(L1, s.queue, 1) &&
            !CanSend(CommitAndRequest(s, 1, 1, 10, BatchStatus.Consolidated))
  {
    var s := Fresh(L1, START, REVERTED);
    L1IsLawful();
    FreshCommits(L1, REVERTED, 1, 1, 10);
    DecodableExactly(s.queue);
    CommittedIsSentExactly(s, 1, 1, 10, BatchStatus.Consolidated);
  }

  const ONLY_GENESIS: map<Hash, Row> := map[ZERO_HASH := GENESIS_BATCH]

  /** Batch 12 claims messages 33 and 34, none of which is stored; its row is live. */
  lemma MissingMessagesExample()
    ensures var s := Fresh(L1, START, ONLY_GENESIS);
            && Commits(s, 12, 1, 10)
            && Live(Changed(s.held.rows, Commit(12, 1, 10)), 12, 1)
            && !CanSend(CommitAndRequest(s, 12, 1, 10, BatchStatus.Consolidated))
  {
    L1IsLawful();
    DecodableExactly(map[]);
    FreshUndecodable(L1, ONLY_GENESIS, 12, 1, 10);
  }

  /** A new batch that cannot be decoded is live and cannot be sent. */
  lemma FreshUndecodable(env: Env, rows: map<Hash, Row>, hash: Hash, index: nat, blockNumber: nat)
    requires Lawful(env) && Ordered(rows) && InL1Order(rows, Commit(hash, index, blockNumber))
    requires hash !in rows && !Decodable(env, map[], hash)
    ensures var s := Fresh(env, START, rows);
            && Commits(s, hash, index, blockNumber)
            && Live(Changed(s.held.rows, Commit(hash, index, blockNumber)), hash, index)
            && !CanSend(CommitAndRequest(s, hash, index, blockNumber, BatchStatus.Consolidated))
  {
    FreshCommits(env, rows, hash, index, blockNumber);
    CommittedIsSentExactly(Fresh(env, START, rows), hash, index, blockNumber, BatchStatus.Consolidated);
  }

  // ---- An administrative unwind with a request queued ----

  /** Batch index 1 was committed as 1, reverted, and committed again as 2 in block 10. */
  const REPLACED: map<Hash, Row> := map[
    ZERO_HASH := GENESIS_BATCH,
    1 := Row(1, 5, None, Some(8), BatchStatus.Reverted),
    2 := Row(1, 10, None, None, BatchStatus.Committed)]

  const REQUEST_B := Pipeline.Request(BatchInfo(1, 2), BatchStatus.Consolidated)

  /** Unwinding to block 7 brings batch 1 back and removes batch 2 while 2 is in flight. */
  ghost function Unwound(): Node {
    After(Requested(Fresh(L1, START, REPLACED), REQUEST_B), HeldEvent(HeldRuns.Unwind(7, None)))
  }

  lemma ReplacedRows()
    ensures Ordered(REPLACED) && Finds(UnwindRows(REPLACED, 7), 1, Some(1))
  {
  }

  /** An unwind to a block while nothing is held. */
  lemma UnwindIdle(s: Node, ancestor: nat)
    requires InStep(s) && !s.held.halted && s.held.slot.pending.None?
    ensures Enabled(s, HeldEvent(HeldRuns.Unwind(ancestor, None)))
    ensures var r := After(s, HeldEvent(HeldRuns.Unwind(ancestor, None)));
            && InStep(r) && r.env == s.env && r.pipe == s.pipe && r.held == s.held.(rows := UnwindRows(s.held.rows, ancestor))
  {
    StepKeepsInStep(s, HeldEvent(HeldRuns.Unwind(ancestor, None)));
  }

  /** The request for batch 2 is then answered with batch 1, which enters the held slot. */
  lemma UnwindChangesTheAnswer() returns (events: seq<Event>)
    ensures InStep(Fresh(L1, START, REPLACED)) && EnabledRun(Unwound(), events)
    ensures var r := AfterAll(Unwound(), events);
            && r.pipe.pushed == [REQUEST_B]
            && |r.held.accepted| == 1 && r.held.accepted[0].info == BatchInfo(1, 1) != REQUEST_B.info
  {
    L1IsLawful();
    ReplacedRows();
    FreshNodeInStep(L1, START, REPLACED);
    RequestedInStep(Fresh(L1, START, REPLACED), REQUEST_B);
    UnwindIdle(Requested(Fresh(L1, START, REPLACED), REQUEST_B), 7);
    var s := Unwound();
    DecodableExactly(s.queue);
    assert Live(s.held.rows, 1, 1);
    var h;
    events, h := AnswerWith(s, REQUEST_B);
    OrderedIsLiveUnique(s.held.rows);
  }

  /** A running request is settled, sent and taken with whatever row is live. */
  lemma AnswerWith(s: Node, request: Pipeline.Request) returns (events: seq<Event>, h: Hash)
    requires InStep(s) && s.pipe.state.futures == [Pipeline.InFlight(request, Pipeline.Running)] && s.pipe.state.outbox == []
    requires CanDerive(s, request.info.index) && !s.held.halted && s.held.slot.pending.None?
    ensures EnabledRun(s, events) && Live(s.held.rows, h, request.info.index)
    ensures var r := AfterAll(s, events);
            && r.pipe.pushed == s.pipe.pushed
            && |r.held.accepted| == |s.held.accepted| + 1
            && r.held.accepted[|s.held.accepted|].info == BatchInfo(request.info.index, h)
  {
    var result := DerivableResolves(s.env, s.held.rows, s.queue, request);
    h := result.batch.info.hash;
    var e1, e2 := PipeEvent(Pipeline.Settled(0, Pipeline.Ready(result))), PipeEvent(Pipeline.Resolved);
    var s1 := After(s, e1);
    var s2 := After(s1, e2);
    OneStep(s2, TakeBatch, []);
    OneStep(s1, e2, [TakeBatch]);
    OneStep(s, e1, [e2, TakeBatch]);
    events := [e1] + ([e2] + ([TakeBatch] + []));
    assert [e2] + ([TakeBatch] + []) == [e2, TakeBatch] && [TakeBatch] + [] == [TakeBatch];
  }
}
