/**
 The pipeline and the held slot as one system over one database: the gate that lets an L1
 notification in only when no derived batch is pending anywhere, which batch a request is answered
 with, and what the written outcomes account for.
 */
module System {
  import opened Primitives
  import opened BatchTables
  import opened Reconciliation
  import opened Requests
  import Consolidation
  import Derivation
  import HeldRuns
  import HeldSlot
  import ForkchoiceEngine
  import MessageQueue
  import Pipeline

  // ---- The system ----

  /** The pipeline, the held slot behind it and the stored L1 messages, in front of a fixed L1. */
  datatype Node = Node(env: Env, pipe: Pipeline.Run<Result>, held: HeldRuns.Node, queue: Queue)

  /** Encoded messages start with their type byte and block numbers are positive and increasing. */
  ghost predicate Lawful(env: Env) {
    && (forall h :: IsL1Message(env.encoded(h)))
    && (forall h :: h in env.commitments ==> Increasing(env.commitments[h].blocks))
  }

  ghost predicate Increasing(blocks: seq<Derivation.BlockData>) {
    && (forall i :: 0 <= i < |blocks| ==> blocks[i].number > 0)
    && (forall i, j :: 0 <= i < j < |blocks| ==> blocks[i].number < blocks[j].number)
  }

  /**
   Nothing is queued in the pipeline and nothing is held: the sequencer may build and, when L2 is
   synced, an L1 notification may be received.
   */
  predicate NoPendingWork(s: Node) {
    s.pipe.state.len == 0 && s.held.slot.pending.None?
  }

  datatype Event =
    | PipeEvent(pipeEvent: Pipeline.Event<Result>)
    | TakeBatch
    | HeldEvent(heldEvent: HeldRuns.Event)
    | Arrive(message: MessageQueue.Message, l1Block: nat)

  /** Commitments, finalizations and reverts arrive as L1 notifications, behind the gate. */
  predicate FromL1(e: HeldRuns.Event) {
    e.TableChange? && !e.change.SetStatus?
  }

  /** A derivation settles against the tables it finds. */
  ghost predicate Settles(s: Node, i: nat, fate: Pipeline.Fate<Result>) {
    && i < |s.pipe.state.futures| && s.pipe.state.futures[i].fate.Running? && !fate.Running?
    && (fate.Ready? ==> Resolves(s.env, s.held.rows, s.queue, s.pipe.state.futures[i].request, fate.result))
  }

  ghost predicate Enabled(s: Node, e: Event) {
    match e
    case PipeEvent(p) => !p.Polled? && (p.Settled? ==> Settles(s, p.i, p.fate))
    case TakeBatch =>
      |s.pipe.state.outbox| > 0 && HeldRuns.Enabled(s.held, HeldRuns.Accept(s.pipe.state.outbox[0].result.batch))
    case HeldEvent(n) =>
      !n.Accept? && HeldRuns.Enabled(s.held, n) && HeldRuns.LegalEvent(s.held, n) && (FromL1(n) ==> NoPendingWork(s))
    case Arrive(m, l1Block) => NoPendingWork(s) && MessageQueue.InOrder(s.queue, MessageQueue.Arrived(m, l1Block))
  }

  ghost function After(s: Node, e: Event): Node
    requires Enabled(s, e)
  {
    match e
    case PipeEvent(p) => s.(pipe := Pipeline.After(s.pipe, p))
    case TakeBatch =>
      s.(pipe := Pipeline.After(s.pipe, Pipeline.Polled),
         held := HeldRuns.Apply(s.held, HeldRuns.Accept(s.pipe.state.outbox[0].result.batch)))
    case HeldEvent(n) =>
      s.(held := HeldRuns.Apply(s.held, n),
         queue := if n.Unwind? then MessageQueue.KeptRows(s.queue, n.ancestor) else s.queue)
    case Arrive(m, l1Block) => s.(queue := MessageQueue.StoreMessage(s.env.H, s.queue, s.env.v2Start, m, l1Block))
  }

  ghost predicate EnabledRun(s: Node, events: seq<Event>)
    decreases |events|
  {
    events == [] || (Enabled(s, events[0]) && EnabledRun(After(s, events[0]), events[1..]))
  }

  ghost function AfterAll(s: Node, events: seq<Event>): Node
    requires EnabledRun(s, events)
    decreases |events|
  {
    if events == [] then s else AfterAll(After(s, events[0]), events[1..])
  }

  // ---- The invariant ----

  /** The result answers the request out of rows in L1 order and a gap-free queue. */
  ghost predicate Sound(env: Env, request: Pipeline.Request, r: Result) {
    Resolves(env, r.rows, r.queue, request, r) && Ordered(r.rows) && MessageQueue.Dense(r.queue)
  }

  ghost predicate SoundResults(env: Env, ds: seq<Pipeline.Derived<Result>>) {
    forall i :: 0 <= i < |ds| ==> Sound(env, ds[i].request, ds[i].result)
  }

  ghost predicate SoundFutures(env: Env, fs: seq<Pipeline.InFlight<Result>>) {
    forall i :: 0 <= i < |fs| && fs[i].fate.Ready? ==> Sound(env, fs[i].request, fs[i].fate.result)
  }

  ghost predicate AllSound(env: Env, run: Pipeline.Run<Result>) {
    SoundResults(env, run.yielded) && SoundResults(env, run.state.outbox) && SoundFutures(env, run.state.futures)
  }

  /** The batches that entered the slot are the pipeline's results, in order. */
  ghost predicate Aligned(s: Node) {
    && |s.held.accepted| == |s.pipe.yielded|
    && forall i :: 0 <= i < |s.held.accepted| ==> s.held.accepted[i] == s.pipe.yielded[i].result.batch
  }

  ghost predicate InStep(s: Node) {
    && Lawful(s.env) && Pipeline.Conserved(s.pipe) && HeldRuns.Safe(s.held) && AllSound(s.env, s.pipe)
    && Aligned(s) && MessageQueue.Sound(s.env.H, s.queue, s.env.v2Start)
  }

  /**
   An unwind leaves nothing from above the ancestor in either table, and of what lies wholly at or below
   it forgets nothing: not a message, and of a row no more than a released status.
   */
  lemma UnwindCutsBoth(s: Node, ancestor: nat, stored: Option<Hash>)
    requires InStep(s) && Enabled(s, HeldEvent(HeldRuns.Unwind(ancestor, stored)))
    ensures var r := After(s, HeldEvent(HeldRuns.Unwind(ancestor, stored)));
            && (forall i :: i in r.queue <==> i in s.queue && s.queue[i].l1Block <= ancestor)
            && (forall i :: i in r.queue ==> r.queue[i] == s.queue[i])
            && (forall h :: h in r.held.rows ==> Within(r.held.rows[h], ancestor))
            && (forall h :: h in s.held.rows && Within(s.held.rows[h], ancestor) ==>
                  h in r.held.rows && r.held.rows[h] == s.held.rows[h].(status := r.held.rows[h].status))
            && r.pipe == s.pipe
  {
    HeldRuns.UnwindCutsRows(s.held, ancestor, stored);
  }

  lemma HeldKeepsAccepted(n: HeldRuns.Node, e: HeldRuns.Event)
    requires HeldRuns.Enabled(n, e) && !e.Accept?
    ensures HeldRuns.Apply(n, e).accepted == n.accepted
  {
  }

  lemma ResolveStaysSound(env: Env, p: Pipeline.State<Result>)
    requires SoundFutures(env, p.futures) && SoundResults(env, p.outbox)
    ensures SoundFutures(env, Pipeline.Resolve(p).futures) && SoundResults(env, Pipeline.Resolve(p).outbox)
  {
    assert forall i :: 0 < i < |p.futures| ==> p.futures[1..][i - 1] == p.futures[i];
  }

  lemma SettleStaysSound(s: Node, i: nat, fate: Pipeline.Fate<Result>)
    requires SoundFutures(s.env, s.pipe.state.futures) && Settles(s, i, fate)
    requires Ordered(s.held.rows) && MessageQueue.Dense(s.queue)
    ensures SoundFutures(s.env, Pipeline.Settle(s.pipe.state, i, fate).futures)
  {
    var fs := s.pipe.state.futures;
    assert fate.Ready? ==> Sound(s.env, fs[i].request, fate.result);
  }

  lemma PipeStaysSound(s: Node, e: Pipeline.Event<Result>)
    requires AllSound(s.env, s.pipe) && Ordered(s.held.rows) && MessageQueue.Dense(s.queue)
    requires e.Settled? ==> Settles(s, e.i, e.fate)
    ensures AllSound(s.env, Pipeline.After(s.pipe, e))
  {
    match e {
      case Pushed(_) =>
      case Received =>
      case Settled(i, fate) => SettleStaysSound(s, i, fate);
      case Resolved => ResolveStaysSound(s.env, s.pipe.state);
      case Polled =>
    }
  }

  lemma LawfulIsAscending(env: Env, request: Pipeline.Request, r: Result)
    requires Lawful(env) && Sound(env, request, r)
    ensures Consolidation.Ascending(r.batch.attrs)
  {
    var attrs, c := r.batch.attrs, env.commitments[r.batch.info.hash];
    forall k | 0 <= k < |attrs|
      ensures attrs[k].number == c.blocks[k].number
    {
      assert Derivation.Derived(c.blocks, r.messages, c.bitmap, k, attrs[k]);
    }
  }

  lemma TakeKeepsInStep(s: Node)
    requires InStep(s) && Enabled(s, TakeBatch)
    ensures InStep(After(s, TakeBatch))
  {
    var d := s.pipe.state.outbox[0];
    LawfulIsAscending(s.env, d.request, d.result);
    Pipeline.StepConserves(s.pipe, Pipeline.Polled);
    PipeStaysSound(s, Pipeline.Polled);
    HeldRuns.StepIsSafe(s.held, HeldRuns.Accept(d.result.batch));
    TakeKeepsAligned(s);
  }

  lemma TakeKeepsAligned(s: Node)
    requires Aligned(s) && Enabled(s, TakeBatch)
    ensures Aligned(After(s, TakeBatch)) && After(s, TakeBatch).held.rows == s.held.rows
  {
  }

  lemma HeldKeepsInStep(s: Node, e: HeldRuns.Event)
    requires InStep(s) && Enabled(s, HeldEvent(e))
    ensures InStep(After(s, HeldEvent(e)))
  {
    HeldRuns.StepIsSafe(s.held, e);
    HeldKeepsAccepted(s.held, e);
    if e.Unwind? {
      MessageQueue.StepIsSound(s.env.H, s.queue, s.env.v2Start, MessageQueue.UnwoundTo(e.ancestor));
    }
  }

  lemma PipeKeepsInStep(s: Node, e: Pipeline.Event<Result>)
    requires InStep(s) && Enabled(s, PipeEvent(e))
    ensures InStep(After(s, PipeEvent(e)))
  {
    Pipeline.StepConserves(s.pipe, e);
    PipeStaysSound(s, e);
  }

  lemma ArriveKeepsInStep(s: Node, m: MessageQueue.Message, l1Block: nat)
    requires InStep(s) && Enabled(s, Arrive(m, l1Block))
    ensures InStep(After(s, Arrive(m, l1Block)))
  {
    MessageQueue.StepIsSound(s.env.H, s.queue, s.env.v2Start, MessageQueue.Arrived(m, l1Block));
  }

  lemma StepKeepsInStep(s: Node, e: Event)
    requires InStep(s) && Enabled(s, e)
    ensures InStep(After(s, e))
  {
    match e {
      case PipeEvent(p) => PipeKeepsInStep(s, p);
      case TakeBatch => TakeKeepsInStep(s);
      case HeldEvent(n) => HeldKeepsInStep(s, n);
      case Arrive(m, l1Block) => ArriveKeepsInStep(s, m, l1Block);
    }
  }

  lemma {:induction false} RunKeepsInStep(s: Node, events: seq<Event>)
    requires InStep(s) && EnabledRun(s, events)
    ensures InStep(AfterAll(s, events))
    decreases |events|
  {
    if events != [] {
      StepKeepsInStep(s, events[0]);
      RunKeepsInStep(After(s, events[0]), events[1..]);
    }
  }

  lemma FreshNodeInStep(env: Env, fcs: ForkchoiceEngine.Fcs, rows: map<Hash, Row>)
    requires Lawful(env) && ForkchoiceEngine.WellFormed(fcs) && Ordered(rows)
    ensures InStep(Fresh(env, fcs, rows))
  {
    MessageQueue.EmptyIsSound(env.H, env.v2Start);
  }

  function Fresh(env: Env, fcs: ForkchoiceEngine.Fcs, rows: map<Hash, Row>): Node {
    Node(env, Pipeline.Run(Pipeline.Idle(), [], []),
         HeldRuns.Node(HeldSlot.EMPTY_SLOT, fcs, [], rows, [], [], false), map[])
  }

  // ---- The gate ----

  /** The batch answers the request with the hash requested exactly when that row was live. */
  lemma HashAgreesExactly(env: Env, request: Pipeline.Request, r: Result)
    requires Sound(env, request, r)
    ensures r.batch.info == request.info <==> Live(r.rows, request.info.hash, request.info.index)
  {
    OrderedIsLiveUnique(r.rows);
  }

  /** How the i-th request ended. */
  ghost predicate Answered(s: Node, i: nat)
    requires i < |s.held.log| && i < |s.pipe.pushed| && i < |s.pipe.yielded|
  {
    var request, resolution := s.pipe.pushed[i], s.held.log[i];
    && resolution.batch.info.index == request.info.index && resolution.batch.target == request.target
    && (resolution.batch.info == request.info <==>
          Live(s.pipe.yielded[i].result.rows, request.info.hash, request.info.index))
    && (resolution.Written? ==> HeldRuns.Faithful(resolution.batch, resolution.outcome))
  }

  /** The resolved batches are the first results yielded, which answer the first requests pushed. */
  lemma ResolvedAnswers(s: Node, i: nat)
    requires InStep(s) && i < |s.held.log|
    ensures |s.held.log| <= |s.pipe.yielded| <= |s.pipe.pushed|
    ensures s.held.log[i].batch == s.pipe.yielded[i].result.batch && s.pipe.pushed[i] == s.pipe.yielded[i].request
    ensures Answered(s, i)
  {
    var log, yielded := s.held.log, s.pipe.yielded;
    assert HeldRuns.Resolved(log)[i] == log[i].batch && s.held.accepted[i] == HeldRuns.Resolved(log)[i];
    assert s.pipe.pushed[..|yielded|] == Pipeline.Requests(yielded);
    assert Pipeline.Requests(yielded)[i] == yielded[i].request;
    HashAgreesExactly(s.env, yielded[i].request, yielded[i].result);
  }

  lemma Drained(s: Node)
    requires InStep(s) && NoPendingWork(s)
    ensures |s.held.log| == |s.pipe.yielded| == |s.pipe.pushed|
    ensures forall i :: 0 <= i < |s.pipe.pushed| ==> Answered(s, i)
  {
    assert s.held.accepted == HeldRuns.Resolved(s.held.log);
    forall i | 0 <= i < |s.pipe.pushed|
      ensures Answered(s, i)
    {
      ResolvedAnswers(s, i);
    }
  }

  /**
   The gate: over any run, whenever an L1 notification may be handled or a block built, every batch
   ever pushed into the pipeline has already been resolved: in push order, each was written once,
   faithfully, or dropped by an unwind. Its hash is the one requested exactly when that row was
   live when the request was looked up. None is queued, in flight, derived or held.
   */
  lemma NotificationsWaitForBatches(s: Node, events: seq<Event>)
    requires InStep(s) && EnabledRun(s, events) && NoPendingWork(AfterAll(s, events))
    ensures var r := AfterAll(s, events);
            && |r.held.log| == |r.pipe.yielded| == |r.pipe.pushed|
            && forall i :: 0 <= i < |r.pipe.pushed| ==> Answered(r, i)
  {
    RunKeepsInStep(s, events);
    Drained(AfterAll(s, events));
  }

  // ---- Requests are answered with the hash requested ----

  /** The callers push rows that are live, and only the gate lets an unwind in. */
  ghost predicate Gated(s: Node, e: Event) {
    && (e.PipeEvent? && e.pipeEvent.Pushed? ==>
          Live(s.held.rows, e.pipeEvent.request.info.hash, e.pipeEvent.request.info.index))
    && (e.HeldEvent? && e.heldEvent.Unwind? ==> NoPendingWork(s))
  }

  ghost predicate GatedRun(s: Node, events: seq<Event>)
    requires EnabledRun(s, events)
    decreases |events|
  {
    events == [] || (Gated(s, events[0]) && GatedRun(After(s, events[0]), events[1..]))
  }

  predicate LiveRequest(rows: map<Hash, Row>, r: Pipeline.Request) {
    Live(rows, r.info.hash, r.info.index)
  }

  ghost predicate MatchingFutures(fs: seq<Pipeline.InFlight<Result>>, rows: map<Hash, Row>) {
    forall i :: 0 <= i < |fs| ==>
      && LiveRequest(rows, fs[i].request)
      && (fs[i].fate.Ready? ==> fs[i].fate.result.batch.info == fs[i].request.info)
  }

  ghost predicate MatchingResults(ds: seq<Pipeline.Derived<Result>>) {
    forall i :: 0 <= i < |ds| ==> ds[i].result.batch.info == ds[i].request.info
  }

  /** Whatever is not derived yet is live, and whatever is carries the hash requested. */
  ghost predicate Matching(s: Node) {
    && (forall i :: 0 <= i < |s.pipe.state.inbox| ==> LiveRequest(s.held.rows, s.pipe.state.inbox[i]))
    && MatchingFutures(s.pipe.state.futures, s.held.rows)
    && MatchingResults(s.pipe.state.outbox) && MatchingResults(s.pipe.yielded)
  }

  /** Only an unwind or a notification changes which rows are live. */
  lemma HeldKeepsLive(n: HeldRuns.Node, e: HeldRuns.Event, h: Hash, index: nat)
    requires HeldRuns.Enabled(n, e) && !e.Unwind? && !FromL1(e)
    ensures Live(HeldRuns.Apply(n, e).rows, h, index) <==> Live(n.rows, h, index)
  {
  }

  lemma SettleMatches(s: Node, i: nat, fate: Pipeline.Fate<Result>)
    requires InStep(s) && Matching(s) && Settles(s, i, fate) && fate.Ready?
    ensures fate.result.batch.info == s.pipe.state.futures[i].request.info
  {
    var request := s.pipe.state.futures[i].request;
    assert LiveRequest(s.held.rows, request);
    HashAgreesExactly(s.env, request, fate.result);
  }

  lemma EmptyPipe(s: Node)
    requires InStep(s) && NoPendingWork(s)
    ensures s.pipe.state.inbox == [] && |s.pipe.state.futures| == 0 && |s.pipe.state.outbox| == 0
  {
    var p := s.pipe;
    assert |p.pushed| == |p.yielded| + |p.state.outbox| + |p.state.futures| + |p.state.inbox|;
  }

  lemma ResolveKeepsMatching(p: Pipeline.State<Result>, rows: map<Hash, Row>)
    requires MatchingFutures(p.futures, rows) && MatchingResults(p.outbox)
    ensures MatchingFutures(Pipeline.Resolve(p).futures, rows) && MatchingResults(Pipeline.Resolve(p).outbox)
  {
    assert forall i :: 0 < i < |p.futures| ==> p.futures[1..][i - 1] == p.futures[i];
  }

  lemma PipeKeepsMatching(s: Node, e: Pipeline.Event<Result>)
    requires InStep(s) && Matching(s) && Enabled(s, PipeEvent(e)) && Gated(s, PipeEvent(e))
    ensures Matching(After(s, PipeEvent(e)))
  {
    match e {
      case Pushed(_) =>
      case Received =>
      case Settled(i, fate) =>
        if fate.Ready? {
          SettleMatches(s, i, fate);
        }
      case Resolved => ResolveKeepsMatching(s.pipe.state, s.held.rows);
    }
  }

  lemma HeldKeepsMatching(s: Node, e: HeldRuns.Event)
    requires InStep(s) && Matching(s) && Enabled(s, HeldEvent(e)) && Gated(s, HeldEvent(e))
    ensures Matching(After(s, HeldEvent(e)))
  {
    if e.Unwind? || FromL1(e) {
      EmptyPipe(s);
    } else {
      forall r: Pipeline.Request
        ensures LiveRequest(After(s, HeldEvent(e)).held.rows, r) <==> LiveRequest(s.held.rows, r)
      {
        HeldKeepsLive(s.held, e, r.info.hash, r.info.index);
      }
    }
  }

  lemma TakeKeepsMatching(s: Node)
    requires Aligned(s) && Matching(s) && Enabled(s, TakeBatch)
    ensures Matching(After(s, TakeBatch))
  {
    TakeKeepsAligned(s);
    assert MatchingResults(After(s, TakeBatch).pipe.yielded);
  }

  lemma StepKeepsMatching(s: Node, e: Event)
    requires InStep(s) && Matching(s) && Enabled(s, e) && Gated(s, e)
    ensures Matching(After(s, e))
  {
    match e {
      case PipeEvent(p) => PipeKeepsMatching(s, p);
      case TakeBatch => TakeKeepsMatching(s);
      case HeldEvent(n) => HeldKeepsMatching(s, n);
      case Arrive(_, _) =>
    }
  }

  /**
   Over any run that pushes live rows and unwinds only behind the gate, every batch that enters
   the held slot is the batch requested: same index, same hash, same target.
   */
  lemma {:induction false} GatedRunsAnswerExactly(s: Node, events: seq<Event>)
    requires InStep(s) && Matching(s) && EnabledRun(s, events) && GatedRun(s, events)
    ensures var r := AfterAll(s, events);
            && InStep(r) && Matching(r) && |r.held.accepted| <= |r.pipe.pushed|
            && forall i :: 0 <= i < |r.held.accepted| ==>
                 r.held.accepted[i].info == r.pipe.pushed[i].info && r.held.accepted[i].target == r.pipe.pushed[i].target
    decreases |events|
  {
    if events == [] {
      AcceptedMatch(s);
    } else {
      StepKeepsInStep(s, events[0]);
      StepKeepsMatching(s, events[0]);
      GatedRunsAnswerExactly(After(s, events[0]), events[1..]);
    }
  }

  lemma AcceptedMatch(s: Node)
    requires InStep(s) && Matching(s)
    ensures |s.held.accepted| <= |s.pipe.pushed|
    ensures forall i :: 0 <= i < |s.held.accepted| ==>
              s.held.accepted[i].info == s.pipe.pushed[i].info && s.held.accepted[i].target == s.pipe.pushed[i].target
  {
    var yielded := s.pipe.yielded;
    assert s.pipe.pushed[..|yielded|] == Pipeline.Requests(yielded);
    forall i | 0 <= i < |s.held.accepted|
      ensures s.held.accepted[i].info == s.pipe.pushed[i].info && s.held.accepted[i].target == s.pipe.pushed[i].target
    {
      assert Pipeline.Requests(yielded)[i] == yielded[i].request && Sound(s.env, yielded[i].request, yielded[i].result);
    }
  }

  // ---- L1 messages end to end ----

  /** The L1 messages the first `n` persisted blocks carry. */
  function Persisted(outcome: BatchOutcome, n: nat): seq<Bytes>
    requires n <= |outcome.blocks|
  {
    if n == 0 then [] else Persisted(outcome, n - 1) + outcome.blocks[n - 1].l1Messages
  }

  /** The L1 messages of a lawful L1 are encoded as such. */
  lemma FetchedIsEncoded(env: Env, queue: Queue, c: Commitment, messages: seq<Derivation.L1Message>)
    requires Lawful(env) && MessageQueue.Dense(queue) && Fetched(env, queue, c, messages)
    ensures Derivation.Encoded(messages)
  {
    var k := FetchedIsSlice(env, queue, c, messages);
    assert forall i :: 0 <= i < |messages| ==> IsStored(env, queue, k + i, messages[i]);
  }

  lemma {:induction false} PersistedPrefix(batch: Batch, outcome: BatchOutcome, c: Commitment,
                                           messages: seq<Derivation.L1Message>, n: nat)
    requires HeldRuns.Faithful(batch, outcome) && DerivedFrom(batch, c, messages) && Derivation.Encoded(messages)
    requires n <= |c.blocks|
    ensures Derivation.Offset(c.blocks, n) <= |messages|
    ensures Persisted(outcome, n) == Derivation.Included(messages, c.bitmap, 0, Derivation.Offset(c.blocks, n))
    decreases n
  {
    Derivation.OffsetGrows(c.blocks, n, |c.blocks|);
    if n > 0 {
      PersistedPrefix(batch, outcome, c, messages, n - 1);
      Derivation.DerivedMessages(c.blocks, messages, c.bitmap, n - 1, batch.attrs[n - 1]);
      Derivation.IncludedSplits(messages, c.bitmap, 0, Derivation.Offset(c.blocks, n - 1), Derivation.Offset(c.blocks, n));
    }
  }

  /** The written outcome accounts for these messages of the commitment. */
  ghost predicate Accounts(outcome: BatchOutcome, c: Commitment, messages: seq<Derivation.L1Message>) {
    && Persisted(outcome, |outcome.blocks|) == Derivation.Included(messages, c.bitmap, 0, |messages|)
    && outcome.skipped == Derivation.Skipped(messages, c.bitmap, |messages|)
    && |Persisted(outcome, |outcome.blocks|)| + |outcome.skipped| == |messages|
  }

  /**
   L1 messages end to end, over any run: for any batch written there are as many messages as the
   commitment behind its hash claims, stored under consecutive queue indices from that commitment's
   cursor on when the batch was looked up. The blocks written carry, in queue order, exactly those
   the commitment's bitmap does not skip; the rest are recorded as skipped.
   */
  lemma MessagesReachTheDatabase(s: Node, events: seq<Event>, i: nat) returns (start: nat, messages: seq<Derivation.L1Message>)
    requires InStep(s) && EnabledRun(s, events)
    requires i < |AfterAll(s, events).held.log| && AfterAll(s, events).held.log[i].Written?
    ensures var r := AfterAll(s, events);
            var h := r.held.log[i].batch.info.hash;
            && i < |r.pipe.yielded| && h in r.env.commitments
            && var c, queue := r.env.commitments[h], r.pipe.yielded[i].result.queue;
               && |messages| == Derivation.Total(c.blocks)
               && StartsAt(r.env, queue, c.cursor, start) && IsSlice(r.env, queue, start, messages)
               && Accounts(r.held.log[i].outcome, c, messages)
  {
    RunKeepsInStep(s, events);
    var r := AfterAll(s, events);
    ResolvedAnswers(r, i);
    var d := r.pipe.yielded[i];
    messages := d.result.messages;
    start := WrittenAccounts(r.env, d.request, d.result, r.held.log[i].outcome);
  }

  lemma WrittenAccounts(env: Env, request: Pipeline.Request, r: Result, outcome: BatchOutcome) returns (start: nat)
    requires Lawful(env) && Sound(env, request, r) && HeldRuns.Faithful(r.batch, outcome)
    ensures var c := env.commitments[r.batch.info.hash];
            StartsAt(env, r.queue, c.cursor, start) && IsSlice(env, r.queue, start, r.messages) && Accounts(outcome, c, r.messages)
  {
    var c := env.commitments[r.batch.info.hash];
    start := FetchedIsSlice(env, r.queue, c, r.messages);
    FetchedIsEncoded(env, r.queue, c, r.messages);
    PersistedPrefix(r.batch, outcome, c, r.messages, |c.blocks|);
    Derivation.NothingLost(r.messages, c.bitmap, |r.messages|);
  }
}
