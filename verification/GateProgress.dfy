/** When the gate for L1 notifications opens again: exactly when every queued request can be answered. */
module GateProgress {
  import opened Primitives
  import opened BatchTables
  import opened Requests
  import opened System
  import opened SystemLimits
  import Consolidation
  import Derivation
  import ForkchoiceEngine
  import HeldRuns
  import Pipeline
  import Reconciliation
  import ReconciliationExact

  /** The request is queued and has no result yet. */
  ghost predicate Waiting(p: Pipeline.State<Result>, r: Pipeline.Request) {
    || r in p.inbox
    || exists i :: 0 <= i < |p.futures| && p.futures[i].request == r && !p.futures[i].fate.Ready?
  }

  /** Everything that waits for a result can be derived from what is stored. */
  ghost predicate AllAnswerable(s: Node) {
    forall r :: Waiting(s.pipe.state, r) ==> CanDerive(s, r.info.index)
  }

  /** Some run without an unwind leaves nothing queued and nothing held. */
  ghost predicate CanReopen(s: Node) {
    exists events :: NoUnwind(events) && EnabledRun(s, events) && NoPendingWork(AfterAll(s, events))
  }

  // ---- A request that cannot be answered keeps the gate shut ----

  lemma WaitingIsPending(s: Node, r: Pipeline.Request)
    requires InStep(s) && Waiting(s.pipe.state, r)
    ensures s.pipe.state.len > 0
  {
    var p := s.pipe;
    assert |p.pushed| == |p.yielded| + |p.state.outbox| + |p.state.futures| + |p.state.inbox|;
  }

  lemma ReceiveKeepsWaiting(p: Pipeline.State<Result>, r: Pipeline.Request)
    requires Waiting(p, r)
    ensures Waiting(Pipeline.Receive(p), r)
  {
    var after := Pipeline.Receive(p);
    if |p.futures| < Pipeline.WORKER_CONCURRENCY && |p.inbox| > 0 {
      if r in p.inbox {
        var j :| 0 <= j < |p.inbox| && p.inbox[j] == r;
        if j == 0 {
          assert after.futures[|p.futures|].request == r;
        } else {
          assert after.inbox[j - 1] == r;
        }
      } else {
        var i :| 0 <= i < |p.futures| && p.futures[i].request == r && !p.futures[i].fate.Ready?;
        assert after.futures[i] == p.futures[i];
      }
    }
  }

  lemma ResolveKeepsWaiting(p: Pipeline.State<Result>, r: Pipeline.Request)
    requires Waiting(p, r)
    ensures Waiting(Pipeline.Resolve(p), r)
  {
    var after := Pipeline.Resolve(p);
    if r !in p.inbox {
      var i :| 0 <= i < |p.futures| && p.futures[i].request == r && !p.futures[i].fate.Ready?;
      if p.futures[0].fate.Ready? {
        assert after.futures[i - 1] == p.futures[i];
      } else {
        assert after.futures[i].request == r && !after.futures[i].fate.Ready?;
      }
    }
  }

  lemma PipeKeepsWaiting(s: Node, e: Pipeline.Event<Result>, r: Pipeline.Request)
    requires InStep(s) && Waiting(s.pipe.state, r) && !CanDerive(s, r.info.index) && Enabled(s, PipeEvent(e))
    ensures Waiting(Pipeline.After(s.pipe, e).state, r)
  {
    var p, after := s.pipe.state, Pipeline.After(s.pipe, e).state;
    match e {
      case Pushed(_) =>
        if r !in p.inbox {
          var i :| 0 <= i < |p.futures| && p.futures[i].request == r && !p.futures[i].fate.Ready?;
          assert after.futures[i] == p.futures[i];
        }
      case Received => ReceiveKeepsWaiting(p, r);
      case Resolved => ResolveKeepsWaiting(p, r);
      case Settled(k, fate) =>
        if fate.Ready? {
          ResolvedIsDerivable(s.env, s.held.rows, s.queue, p.futures[k].request, fate.result);
        }
        if r !in p.inbox {
          var i :| 0 <= i < |p.futures| && p.futures[i].request == r && !p.futures[i].fate.Ready?;
          assert after.futures[i].request == r && !after.futures[i].fate.Ready?;
        }
    }
  }

  lemma TakeKeepsWaiting(s: Node, r: Pipeline.Request)
    requires Waiting(s.pipe.state, r) && Enabled(s, TakeBatch)
    ensures Waiting(After(s, TakeBatch).pipe.state, r)
    ensures CanDerive(After(s, TakeBatch), r.info.index) <==> CanDerive(s, r.info.index)
  {
    assert After(s, TakeBatch).pipe.state.futures == s.pipe.state.futures;
  }

  lemma StepKeepsWaiting(s: Node, e: Event, r: Pipeline.Request)
    requires InStep(s) && Waiting(s.pipe.state, r) && !CanDerive(s, r.info.index)
    requires Enabled(s, e) && !(e.HeldEvent? && e.heldEvent.Unwind?)
    ensures Waiting(After(s, e).pipe.state, r) && !CanDerive(After(s, e), r.info.index)
  {
    WaitingIsPending(s, r);
    match e {
      case PipeEvent(p) => PipeKeepsWaiting(s, p, r);
      case TakeBatch => TakeKeepsWaiting(s, r);
      case HeldEvent(n) => HeldKeepsDerivable(s, n, r.info.index);
    }
  }

  lemma HeldKeepsDerivable(s: Node, e: HeldRuns.Event, index: nat)
    requires InStep(s) && Enabled(s, HeldEvent(e)) && !e.Unwind? && !NoPendingWork(s)
    ensures CanDerive(After(s, HeldEvent(e)), index) <==> CanDerive(s, index)
  {
    forall h
      ensures Live(After(s, HeldEvent(e)).held.rows, h, index) <==> Live(s.held.rows, h, index)
    {
      HeldKeepsLive(s.held, e, h, index);
    }
    SameDerivable(s.env, s.held.rows, After(s, HeldEvent(e)).held.rows, s.queue, index);
  }

  lemma {:induction false} ShutForever(s: Node, events: seq<Event>, r: Pipeline.Request)
    requires InStep(s) && Waiting(s.pipe.state, r) && !CanDerive(s, r.info.index) && EnabledRun(s, events) && NoUnwind(events)
    ensures !NoPendingWork(AfterAll(s, events))
    decreases |events|
  {
    if events == [] {
      WaitingIsPending(s, r);
    } else {
      StepKeepsInStep(s, events[0]);
      StepKeepsWaiting(s, events[0], r);
      ShutForever(After(s, events[0]), events[1..], r);
    }
  }

  // ---- A world in which an attempt completes ----

  /** A block that agrees with the attributes in every field. */
  function BlockFor(d: Consolidation.DerivedAttributes): Consolidation.L2Block
    requires d.attributes.transactions.Some?
  {
    var a := d.attributes;
    Consolidation.L2Block(
      BlockInfo(d.number, 0), Some(d.baseFee), Consolidation.Default(a.gasLimit, 0), a.timestamp, Some(a.prevRandao),
      Consolidation.Default(a.hint.extraData, []), Consolidation.Default(a.hint.stateRoot, 0),
      Consolidation.Default(a.hint.coinbase, 0), a.hint.nonce, a.transactions.value)
  }

  ghost predicate Listed(attrs: seq<Consolidation.DerivedAttributes>) {
    Consolidation.Ascending(attrs) && forall i :: 0 <= i < |attrs| ==> attrs[i].attributes.transactions.Some?
  }

  /** The Engine has every block of the batch and says VALID. */
  ghost function GoodWorld(attrs: seq<Consolidation.DerivedAttributes>): Reconciliation.World
    requires Listed(attrs)
  {
    Reconciliation.World(
      Some(BlockInfo(0, 0)), map i | 0 <= i < |attrs| :: attrs[i].number := BlockFor(attrs[i]), |attrs|,
      Reconciliation.Client((n, m) => ForkchoiceEngine.Answer(ForkchoiceEngine.VALID, None), (n, i, b) => None, n => None),
      true)
  }

  lemma AllKept(attrs: seq<Consolidation.DerivedAttributes>, finalized: nat)
    requires Listed(attrs)
    ensures Consolidation.Numbered(GoodWorld(attrs).chain)
    ensures Consolidation.FirstRebuild(attrs, GoodWorld(attrs).chain, finalized, 0) == |attrs|
  {
    var chain := GoodWorld(attrs).chain;
    forall i | 0 <= i < |attrs|
      ensures !Consolidation.Compare(attrs, chain, finalized, i).Rebuild?
    {
      assert chain[attrs[i].number] == BlockFor(attrs[i]);
      ReconciliationExact.KeptExactly(attrs, chain, finalized, i);
    }
  }

  lemma GoodWorldCompletes(batch: Reconciliation.Batch, fcs: ForkchoiceEngine.Fcs)
    requires Listed(batch.attrs) && ForkchoiceEngine.WellFormed(fcs)
    ensures Consolidation.Numbered(GoodWorld(batch.attrs).chain)
    ensures Reconciliation.Reconcile(batch, fcs, GoodWorld(batch.attrs)).1.Completed?
  {
    AllKept(batch.attrs, fcs.finalized.number);
    ReconciliationExact.CompletesExactly(batch, fcs, GoodWorld(batch.attrs));
  }

  // ---- Otherwise there is always a way on ----

  function FateWeight(f: Pipeline.Fate<Result>): nat {
    match f
    case Failing => 6
    case Running => 5
    case Ready(_) => 4
  }

  function FuturesWeight(fs: seq<Pipeline.InFlight<Result>>): nat {
    if |fs| == 0 then 0 else FateWeight(fs[0].fate) + FuturesWeight(fs[1..])
  }

  /** How far the node is from having nothing to do. */
  function Weight(s: Node): nat {
    7 * |s.pipe.state.inbox| + FuturesWeight(s.pipe.state.futures) + 3 * |s.pipe.state.outbox| +
    (if s.held.slot.pending.None? then 0 else if s.held.slot.scheduled then 1 else 2)
  }

  /** What every step on the way keeps. */
  ghost predicate Healthy(s: Node) {
    InStep(s) && AllAnswerable(s) && !s.held.halted
  }

  lemma HeldIsListed(s: Node)
    requires InStep(s) && s.held.slot.pending.Some?
    ensures Listed(s.held.slot.pending.value.batch.attrs)
  {
    var k := |s.held.accepted| - 1;
    HeldRuns.HeldIsAscending(s.held);
    var r := s.pipe.yielded[k].result;
    assert s.held.accepted[k] == s.held.slot.pending.value.batch == r.batch;
    assert Sound(s.env, s.pipe.yielded[k].request, r);
    var c := s.env.commitments[r.batch.info.hash];
    forall i | 0 <= i < |r.batch.attrs|
      ensures r.batch.attrs[i].attributes.transactions.Some?
    {
      assert Derivation.Derived(c.blocks, r.messages, c.bitmap, i, r.batch.attrs[i]);
    }
  }

  lemma SamePipeAnswerable(s: Node, s': Node)
    requires AllAnswerable(s) && s'.pipe.state == s.pipe.state
    requires forall index: nat :: CanDerive(s', index) <==> CanDerive(s, index)
    ensures AllAnswerable(s')
  {
  }

  /** A held batch is scheduled, and then written. */
  lemma HeldAdvances(s: Node) returns (e: Event)
    requires Healthy(s) && s.held.slot.pending.Some?
    ensures Enabled(s, e) && e.HeldEvent? && !e.heldEvent.Unwind?
    ensures Healthy(After(s, e)) && Weight(After(s, e)) < Weight(s)
  {
    var batch := s.held.slot.pending.value.batch;
    HeldIsListed(s);
    GoodWorldCompletes(batch, s.held.fcs);
    e := HeldEvent(if s.held.slot.scheduled then HeldRuns.TryAttempt(GoodWorld(batch.attrs)) else HeldRuns.Reschedule);
    StepKeepsInStep(s, e);
    forall index: nat
      ensures CanDerive(After(s, e), index) <==> CanDerive(s, index)
    {
      HeldKeepsDerivable(s, e.heldEvent, index);
    }
    SamePipeAnswerable(s, After(s, e));
  }

  lemma TakeAdvances(s: Node)
    requires Healthy(s) && s.held.slot.pending.None? && |s.pipe.state.outbox| > 0
    ensures Enabled(s, TakeBatch) && Healthy(After(s, TakeBatch)) && Weight(After(s, TakeBatch)) < Weight(s)
  {
    StepKeepsInStep(s, TakeBatch);
    TakeWeighsLess(s);
    var s' := After(s, TakeBatch);
    assert s'.pipe.state.futures == s.pipe.state.futures && s'.pipe.state.inbox == s.pipe.state.inbox;
    SameQueueAnswerable(s, s');
  }

  lemma TakeWeighsLess(s: Node)
    requires s.held.slot.pending.None? && |s.pipe.state.outbox| > 0 && Enabled(s, TakeBatch)
    ensures Weight(After(s, TakeBatch)) < Weight(s)
  {
    var after := After(s, TakeBatch);
    assert after.pipe.state.futures == s.pipe.state.futures && |after.pipe.state.outbox| == |s.pipe.state.outbox| - 1;
  }

  lemma SameQueueAnswerable(s: Node, s': Node)
    requires AllAnswerable(s) && s'.env == s.env && s'.held.rows == s.held.rows && s'.queue == s.queue
    requires s'.pipe.state.futures == s.pipe.state.futures && s'.pipe.state.inbox == s.pipe.state.inbox
    ensures AllAnswerable(s')
  {
    forall r | Waiting(s'.pipe.state, r)
      ensures CanDerive(s', r.info.index)
    {
      assert Waiting(s.pipe.state, r);
    }
  }

  lemma ReceiveAdvances(s: Node)
    requires Healthy(s) && |s.pipe.state.futures| == 0 && |s.pipe.state.inbox| > 0
    ensures var e := PipeEvent(Pipeline.Received);
            Enabled(s, e) && Healthy(After(s, e)) && Weight(After(s, e)) < Weight(s)
  {
    var e := PipeEvent(Pipeline.Received);
    StepKeepsInStep(s, e);
    var p, after := s.pipe.state, After(s, e).pipe.state;
    assert after.futures == [Pipeline.InFlight(p.inbox[0], Pipeline.Running)] && after.inbox == p.inbox[1..];
    assert after.futures[1..] == [] && FuturesWeight(after.futures) == 5;
    forall r | Waiting(after, r)
      ensures CanDerive(After(s, e), r.info.index)
    {
      assert r in p.inbox;
    }
  }

  /** The front is settled with a result, or taken out if it is settled. */
  lemma FrontMoves(s: Node) returns (e: Event)
    requires Healthy(s) && |s.pipe.state.futures| > 0
    ensures Enabled(s, e) && e.PipeEvent? && FrontMoved(s.pipe.state, After(s, e).pipe.state)
    ensures After(s, e) == s.(pipe := After(s, e).pipe)
  {
    var p := s.pipe.state;
    var front := p.futures[0];
    if front.fate.Running? {
      assert Waiting(p, front.request);
      var result := DerivableResolves(s.env, s.held.rows, s.queue, front.request);
      e := PipeEvent(Pipeline.Settled(0, Pipeline.Ready(result)));
    } else {
      e := PipeEvent(Pipeline.Resolved);
    }
  }

  lemma FrontAdvances(s: Node) returns (e: Event)
    requires Healthy(s) && |s.pipe.state.futures| > 0
    ensures Enabled(s, e) && e.PipeEvent? && Healthy(After(s, e)) && Weight(After(s, e)) < Weight(s)
  {
    e := FrontMoves(s);
    StepKeepsInStep(s, e);
    var p, after := s.pipe.state, After(s, e).pipe.state;
    FrontWeighsLess(p, after);
    forall r | Waiting(after, r)
      ensures CanDerive(After(s, e), r.info.index)
    {
      WaitedBefore(p, after, r);
    }
  }

  /** The front got lighter, or went out with a result; nothing else changed. */
  ghost predicate FrontMoved(p: Pipeline.State<Result>, after: Pipeline.State<Result>) {
    && |p.futures| > 0 && after.inbox == p.inbox
    && (|| (&& |after.futures| > 0 && after.futures[1..] == p.futures[1..] && after.outbox == p.outbox
            && after.futures[0].request == p.futures[0].request && !p.futures[0].fate.Ready?
            && FateWeight(after.futures[0].fate) < FateWeight(p.futures[0].fate))
        || (after.futures == p.futures[1..] && |after.outbox| == |p.outbox| + 1 && p.futures[0].fate.Ready?))
  }

  lemma FrontWeighsLess(p: Pipeline.State<Result>, after: Pipeline.State<Result>)
    requires FrontMoved(p, after)
    ensures FuturesWeight(after.futures) + 3 * |after.outbox| < FuturesWeight(p.futures) + 3 * |p.outbox|
  {
  }

  lemma WaitedBefore(p: Pipeline.State<Result>, after: Pipeline.State<Result>, r: Pipeline.Request)
    requires FrontMoved(p, after) && Waiting(after, r)
    ensures Waiting(p, r)
  {
    if r !in p.inbox {
      var i :| 0 <= i < |after.futures| && after.futures[i].request == r && !after.futures[i].fate.Ready?;
      if p.futures[0].fate.Ready? {
        assert p.futures[i + 1] == after.futures[i];
      } else if i > 0 {
        assert p.futures[i] == p.futures[1..][i - 1] == after.futures[1..][i - 1] == after.futures[i];
      } else {
        assert p.futures[0].request == r;
      }
    }
  }

  lemma Advances(s: Node) returns (e: Event)
    requires Healthy(s) && !NoPendingWork(s)
    ensures Enabled(s, e) && !(e.HeldEvent? && e.heldEvent.Unwind?)
    ensures Healthy(After(s, e)) && Weight(After(s, e)) < Weight(s)
  {
    var p := s.pipe;
    assert |p.pushed| == |p.yielded| + |p.state.outbox| + |p.state.futures| + |p.state.inbox|;
    if s.held.slot.pending.Some? {
      e := HeldAdvances(s);
    } else if |p.state.outbox| > 0 {
      e := TakeBatch;
      TakeAdvances(s);
    } else if |p.state.futures| > 0 {
      e := FrontAdvances(s);
    } else {
      e := PipeEvent(Pipeline.Received);
      ReceiveAdvances(s);
    }
  }

  lemma {:induction false} Reopens(s: Node) returns (events: seq<Event>)
    requires Healthy(s)
    ensures NoUnwind(events) && EnabledRun(s, events) && NoPendingWork(AfterAll(s, events))
    decreases Weight(s)
  {
    events := [];
    if !NoPendingWork(s) {
      var e := Advances(s);
      var rest := Reopens(After(s, e));
      OneStep(s, e, rest);
      events := [e] + rest;
    }
  }

  /**
   The gate for L1 notifications can open again without an unwind, from any state of a live node, if and
   only if every request that waits for a result can be derived from the rows and messages stored.
   */
  lemma GateReopensExactly(s: Node)
    requires InStep(s) && !s.held.halted
    ensures CanReopen(s) <==> AllAnswerable(s)
  {
    if AllAnswerable(s) {
      var events := Reopens(s);
      assert CanReopen(s);
    } else {
      var r :| Waiting(s.pipe.state, r) && !CanDerive(s, r.info.index);
      forall events | NoUnwind(events) && EnabledRun(s, events)
        ensures !NoPendingWork(AfterAll(s, events))
      {
        ShutForever(s, events, r);
      }
    }
  }
}
