/**
 The sequencer's side of L1 messages: the gas-bounded selection, the halving retry limit after a
 failed build, and the commit of a built block as the new head.
 */
module Sequencer {
  import opened Primitives
  import opened ForkchoiceEngine

  // ---- Selecting messages ----

  function TotalGas(gas: seq<nat>): nat {
    if gas == [] then 0 else TotalGas(gas[..|gas| - 1]) + gas[|gas| - 1]
  }

  lemma {:induction false} GasGrows(gas: seq<nat>, m: nat, n: nat)
    requires m <= n <= |gas|
    ensures TotalGas(gas[..m]) <= TotalGas(gas[..n])
    decreases n
  {
    if m < n {
      assert gas[..n][..n - 1] == gas[..n - 1];
      GasGrows(gas, m, n - 1);
    }
  }

  /** The longest prefix of the queue whose gas limits fit in the block. */
  method SelectMessages(gas: seq<nat>, blockGasLimit: nat) returns (count: nat)
    ensures count <= |gas| && TotalGas(gas[..count]) <= blockGasLimit
    ensures forall m :: 0 <= m <= |gas| && TotalGas(gas[..m]) <= blockGasLimit ==> m <= count
  {
    var used := 0;
    count := 0;
    while count < |gas|
      invariant count <= |gas| && used == TotalGas(gas[..count]) <= blockGasLimit
    {
      assert gas[..count + 1][..count] == gas[..count];
      if gas[count] + used > blockGasLimit {
        forall m | count < m <= |gas|
          ensures TotalGas(gas[..m]) > blockGasLimit
        {
          GasGrows(gas, count + 1, m);
        }
        return;
      }
      used := used + gas[count];
      count := count + 1;
    }
  }

  // ---- The retry limit ----

  datatype Limit = Limit(parent: BlockInfo, messages: nat)

  datatype BuildRequest = BuildRequest(id: nat, parent: BlockInfo, count: nat)

  datatype Recovery = Recovery(limit: Option<Limit>, request: Option<BuildRequest>)

  function ResetForParent(r: Recovery, parent: BlockInfo): Recovery {
    if r.limit.Some? && r.limit.value.parent != parent then r.(limit := None) else r
  }

  /** How many messages the next build on `parent` may include. */
  function Allowed(r: Recovery, parent: BlockInfo, configured: nat): nat {
    if r.limit.Some? && r.limit.value.parent == parent then Min(configured, r.limit.value.messages) else configured
  }

  /** The request a result belongs to, unless it is stale. */
  predicate Matches(r: Recovery, id: nat, parent: BlockInfo) {
    r.request.Some? && r.request.value.id == id && r.request.value.parent == parent
  }

  /** The result lowers the limit. */
  predicate Reduces(r: Recovery, id: nat, parent: BlockInfo, succeeded: bool) {
    Matches(r, id, parent) && !succeeded && r.request.value.count > 1
  }

  function AfterResult(r: Recovery, id: nat, parent: BlockInfo, succeeded: bool): Recovery {
    var r1 := ResetForParent(r, parent);
    if r.request.None? || r.request.value.id != id then r1
    else if r.request.value.parent != parent then r1.(request := None)
    else if succeeded then Recovery(None, None)
    else if r.request.value.count > 1 then Recovery(Some(Limit(parent, r.request.value.count / 2)), None)
    else r1.(request := None)
  }

  class L1MessageBuildRecovery {
    var limit: Option<Limit>
    var request: Option<BuildRequest>

    ghost function View(): Recovery
      reads this
    {
      Recovery(limit, request)
    }

    constructor ()
      ensures View() == Recovery(None, None)
    {
      limit, request := None, None;
    }

    method Reset(parent: BlockInfo)
      modifies this
      ensures View() == ResetForParent(old(View()), parent)
    {
      if limit.Some? && limit.value.parent != parent {
        limit := None;
      }
    }

    method MaxMessages(parent: BlockInfo, configured: nat) returns (n: nat)
      modifies this
      ensures View() == ResetForParent(old(View()), parent)
      ensures n == Allowed(old(View()), parent, configured)
    {
      Reset(parent);
      n := if limit.Some? then Min(configured, limit.value.messages) else configured;
    }

    method RecordRequest(id: nat, parent: BlockInfo, count: nat)
      modifies this
      ensures View() == old(View()).(request := Some(BuildRequest(id, parent, count)))
    {
      request := Some(BuildRequest(id, parent, count));
    }

    method CancelRequest()
      modifies this
      ensures View() == old(View()).(request := None)
    {
      request := None;
    }

    /** Only the matching request on the current parent can lower the limit. */
    method RecordResult(id: nat, parent: BlockInfo, succeeded: bool) returns (reduced: Option<nat>)
      modifies this
      ensures View() == AfterResult(old(View()), id, parent, succeeded)
      ensures reduced.Some? <==> Reduces(old(View()), id, parent, succeeded)
      ensures reduced.Some? ==> limit == Some(Limit(parent, reduced.value)) &&
                                0 < reduced.value == old(request).value.count / 2 < old(request).value.count
    {
      Reset(parent);
      if request.None? || request.value.id != id {
        return None;
      }
      var build := request.value;
      request := None;
      if build.parent != parent {
        return None;
      }
      if succeeded {
        limit := None;
      } else if build.count > 1 {
        limit := Some(Limit(parent, build.count / 2));
        return Some(build.count / 2);
      }
      return None;
    }
  }

  // ---- Runs ----

  datatype Event =
    | Started(id: nat, count: nat)
    | StartFailed
    | Cancelled
    | Returned(id: nat, succeeded: bool)

  function After(r: Recovery, parent: BlockInfo, e: Event): Recovery {
    match e
    case Started(id, count) => ResetForParent(r, parent).(request := Some(BuildRequest(id, parent, count)))
    case StartFailed => ResetForParent(r, parent)
    case Cancelled => r.(request := None)
    case Returned(id, succeeded) => AfterResult(r, id, parent, succeeded)
  }

  function AfterAll(r: Recovery, parent: BlockInfo, events: seq<Event>): Recovery
    decreases |events|
  {
    if events == [] then r else AfterAll(After(r, parent, events[0]), parent, events[1..])
  }

  function Reductions(r: Recovery, parent: BlockInfo, events: seq<Event>): nat
    decreases |events|
  {
    if events == [] then 0
    else (if events[0].Returned? && Reduces(r, events[0].id, parent, events[0].succeeded) then 1 else 0) +
         Reductions(After(r, parent, events[0]), parent, events[1..])
  }

  /** Builds respect the limit in force, and no build on this parent succeeds. */
  ghost predicate FailingRun(r: Recovery, parent: BlockInfo, configured: nat, events: seq<Event>)
    decreases |events|
  {
    events == [] ||
    (&& (events[0].Started? ==> events[0].count <= Allowed(r, parent, configured))
     && (events[0].Returned? ==> !events[0].succeeded)
     && FailingRun(After(r, parent, events[0]), parent, configured, events[1..]))
  }

  /** The outstanding build, if it is on this parent, respects the limit; the limit is never zero. */
  ghost predicate Bounded(r: Recovery, parent: BlockInfo, configured: nat) {
    && 0 < Allowed(r, parent, configured)
    && (r.request.Some? && r.request.value.parent == parent ==> r.request.value.count <= Allowed(r, parent, configured))
  }

  lemma StepHalves(r: Recovery, parent: BlockInfo, configured: nat, e: Event)
    requires Bounded(r, parent, configured) && FailingRun(r, parent, configured, [e])
    ensures Bounded(After(r, parent, e), parent, configured)
    ensures var reduced := e.Returned? && Reduces(r, e.id, parent, e.succeeded);
            var before, after := Allowed(r, parent, configured), Allowed(After(r, parent, e), parent, configured);
            if reduced then 2 * after <= before else after == before
  {
  }

  /**
   Retry convergence: while builds on one parent keep failing, every reduction at least halves
   the allowed prefix, which never reaches zero, so there are at most log2(configured) of them.
   */
  lemma {:induction false} RetriesConverge(r: Recovery, parent: BlockInfo, configured: nat, events: seq<Event>)
    requires Bounded(r, parent, configured) && FailingRun(r, parent, configured, events)
    ensures var n := Reductions(r, parent, events);
            var left := Allowed(AfterAll(r, parent, events), parent, configured);
            0 < left && Pow2(n) * left <= Allowed(r, parent, configured) <= configured && Pow2(n) <= configured
    decreases |events|
  {
    if events != [] {
      var e, next := events[0], After(r, parent, events[0]);
      assert FailingRun(r, parent, configured, [e]);
      StepHalves(r, parent, configured, e);
      RetriesConverge(next, parent, configured, events[1..]);
      DoubleOnce(Reductions(next, parent, events[1..]), Allowed(AfterAll(next, parent, events[1..]), parent, configured));
    }
    PowPositive(Reductions(r, parent, events), Allowed(AfterAll(r, parent, events), parent, configured));
  }

  lemma DoubleOnce(n: nat, left: nat)
    ensures Pow2(n + 1) * left == 2 * (Pow2(n) * left)
  {
  }

  lemma PowPositive(n: nat, left: nat)
    requires 0 < left
    ensures Pow2(n) <= Pow2(n) * left
  {
  }

  // ---- Where a limit comes from ----

  /** An event and the parent it happened on. */
  type OnParent = (BlockInfo, Event)

  function AfterHistory(h: seq<OnParent>): Recovery {
    if h == [] then Recovery(None, None)
    else After(AfterHistory(h[..|h| - 1]), h[|h| - 1].0, h[|h| - 1].1)
  }

  /** The event neither supersedes nor cancels an outstanding build, and is not its return. */
  predicate Leaves(e: OnParent, id: nat) {
    !e.1.Started? && !e.1.Cancelled? && (e.1.Returned? ==> e.1.id != id)
  }

  /** The request was started at `j` and has been outstanding ever since. */
  ghost predicate OpenSince(h: seq<OnParent>, j: nat, r: BuildRequest) {
    && j < |h| && h[j] == (r.parent, Started(r.id, r.count))
    && forall k :: j < k < |h| ==> Leaves(h[k], r.id)
  }

  /**
   The limit is half of a build of more than one message, started at `j` on the limit's parent and
   outstanding until it failed at `i`, still on that parent.
   */
  ghost predicate LimitedBy(h: seq<OnParent>, j: nat, i: nat, limit: Limit) {
    && j < i < |h| && h[i].0 == h[j].0 == limit.parent
    && h[i].1.Returned? && !h[i].1.succeeded && h[j].1.Started? && h[j].1.id == h[i].1.id
    && h[j].1.count > 1 && limit.messages == h[j].1.count / 2
    && forall k :: j < k < i ==> Leaves(h[k], h[i].1.id)
  }

  ghost predicate HasRequest(h: seq<OnParent>, r: BuildRequest) {
    exists j: nat :: OpenSince(h, j, r)
  }

  /** The event ends the limit: it happens on another parent, or settles the outstanding build there. */
  ghost predicate EndsLimit(h: seq<OnParent>, k: nat, limit: Limit)
    requires k < |h|
  {
    && !h[k].1.Cancelled?
    && (h[k].0 != limit.parent ||
        (h[k].1.Returned? && exists r :: HasRequest(h[..k], r) && r.id == h[k].1.id && r.parent == limit.parent &&
                                         (h[k].1.succeeded || r.count > 1)))
  }

  /** The limit has a cause and nothing has ended it since. */
  ghost predicate InForce(h: seq<OnParent>, limit: Limit) {
    exists j: nat, i: nat :: LimitedBy(h, j, i, limit) && forall k :: i < k < |h| ==> !EndsLimit(h, k, limit)
  }

  /** The outstanding request and the limit are exactly what the history says. */
  ghost predicate Explained(h: seq<OnParent>, r: Recovery) {
    && (forall x :: HasRequest(h, x) <==> r.request == Some(x))
    && (forall x :: InForce(h, x) <==> r.limit == Some(x))
  }

  lemma RequestAfter(h: seq<OnParent>, e: OnParent, x: BuildRequest)
    ensures HasRequest(h + [e], x) <==>
            e == (x.parent, Started(x.id, x.count)) || (HasRequest(h, x) && Leaves(e, x.id))
  {
    var h' := h + [e];
    if e == (x.parent, Started(x.id, x.count)) {
      assert OpenSince(h', |h|, x);
    }
    if HasRequest(h, x) && Leaves(e, x.id) {
      var j: nat :| OpenSince(h, j, x);
      assert OpenSince(h', j, x);
    }
    if HasRequest(h', x) {
      var j: nat :| OpenSince(h', j, x);
      if j < |h| {
        assert Leaves(h'[|h|], x.id);
        assert forall k :: j < k < |h| ==> h[k] == h'[k];
        assert OpenSince(h, j, x);
      }
    }
  }

  /** The event fails the outstanding build on the limit's parent. */
  predicate Causes(r: Recovery, e: OnParent, limit: Limit) {
    && e.1.Returned? && !e.1.succeeded && r.request.Some? && r.request.value.id == e.1.id
    && r.request.value.parent == e.0 == limit.parent && r.request.value.count > 1
    && limit.messages == r.request.value.count / 2
  }

  lemma NewCause(h: seq<OnParent>, r: Recovery, e: OnParent, limit: Limit)
    requires forall x :: HasRequest(h, x) <==> r.request == Some(x)
    ensures (exists j: nat :: LimitedBy(h + [e], j, |h|, limit)) <==> Causes(r, e, limit)
  {
    var h' := h + [e];
    if Causes(r, e, limit) {
      assert HasRequest(h, r.request.value);
      var j: nat :| OpenSince(h, j, r.request.value);
      assert LimitedBy(h', j, |h|, limit);
    }
    if j: nat :| LimitedBy(h', j, |h|, limit) {
      var x := BuildRequest(h[j].1.id, h[j].0, h[j].1.count);
      assert forall k :: j < k < |h| ==> h'[k] == h[k];
      assert OpenSince(h, j, x);
      assert HasRequest(h, x);
    }
  }

  lemma EndsAfter(h: seq<OnParent>, r: Recovery, e: OnParent, limit: Limit)
    requires forall x :: HasRequest(h, x) <==> r.request == Some(x)
    ensures EndsLimit(h + [e], |h|, limit) <==>
            && !e.1.Cancelled?
            && (e.0 != limit.parent ||
                (e.1.Returned? && r.request.Some? && r.request.value.id == e.1.id && r.request.value.parent == limit.parent &&
                 (e.1.succeeded || r.request.value.count > 1)))
  {
    assert (h + [e])[..|h|] == h;
    if r.request.Some? {
      assert HasRequest(h, r.request.value);
    }
  }

  lemma EndsBefore(h: seq<OnParent>, e: OnParent, k: nat, limit: Limit)
    requires k < |h|
    ensures EndsLimit(h + [e], k, limit) <==> EndsLimit(h, k, limit)
  {
    assert (h + [e])[..k] == h[..k];
  }

  /** A limit in force after the event was caused by it, or was in force before and is not ended by it. */
  lemma LimitAfter(h: seq<OnParent>, r: Recovery, e: OnParent, limit: Limit)
    requires forall x :: HasRequest(h, x) <==> r.request == Some(x)
    ensures InForce(h + [e], limit) <==> Causes(r, e, limit) || (InForce(h, limit) && !EndsLimit(h + [e], |h|, limit))
  {
    var h' := h + [e];
    NewCause(h, r, e, limit);
    forall k: nat | k < |h|
      ensures EndsLimit(h', k, limit) <==> EndsLimit(h, k, limit)
    {
      EndsBefore(h, e, k, limit);
    }
    if Causes(r, e, limit) {
      var j: nat :| LimitedBy(h', j, |h|, limit);
      assert InForce(h', limit);
    }
    if InForce(h, limit) && !EndsLimit(h', |h|, limit) {
      var j: nat, i: nat :| LimitedBy(h, j, i, limit) && forall k :: i < k < |h| ==> !EndsLimit(h, k, limit);
      assert LimitedBy(h', j, i, limit);
    }
    if InForce(h', limit) {
      var j: nat, i: nat :| LimitedBy(h', j, i, limit) && forall k :: i < k < |h'| ==> !EndsLimit(h', k, limit);
      if i < |h| {
        assert forall k :: j <= k <= i ==> h[k] == h'[k];
        assert LimitedBy(h, j, i, limit);
        assert !EndsLimit(h', |h|, limit);
      }
    }
  }

  lemma StepIsExplained(h: seq<OnParent>, r: Recovery, e: OnParent)
    requires Explained(h, r)
    ensures Explained(h + [e], After(r, e.0, e.1))
  {
    forall x
      ensures HasRequest(h + [e], x) <==> After(r, e.0, e.1).request == Some(x)
    {
      RequestAfter(h, e, x);
    }
    forall x
      ensures InForce(h + [e], x) <==> After(r, e.0, e.1).limit == Some(x)
    {
      LimitAfter(h, r, e, x);
      EndsAfter(h, r, e, x);
    }
  }

  /**
   The limit is exactly what the history says. Over any run of starts, failed starts, cancellations
   and returns on any parents, a limit is in force if and only if it is half of the count of a build of
   more than one message on its parent, which failed there before anything cancelled or superseded it,
   and since then nothing happened on another parent and no build on this one succeeded or failed in
   its turn. So stale results set no limit, and a success lifts it.
   */
  lemma {:induction false} LimitIsExact(h: seq<OnParent>)
    ensures Explained(h, AfterHistory(h))
    decreases |h|
  {
    if h != [] {
      var front, last := h[..|h| - 1], h[|h| - 1];
      LimitIsExact(front);
      StepIsExplained(front, AfterHistory(front), last);
      assert h == front + [last];
    }
  }

  // ---- Starting and committing a block ----

  datatype Start = BuildStarted(id: nat, count: nat) | BuildFailed(result: FcuResult) | QueryFailed

  /**
   Asks the Engine to build on the head with the longest prefix of the queue that fits both the
   retry limit and the block's gas; a build the Engine takes on becomes the outstanding request.
   `queue` holds the gas limits of the pending messages, or `None` when the query fails.
   */
  method StartPayloadBuilding(engine: Engine, recovery: L1MessageBuildRecovery, queue: Option<seq<nat>>,
                              configured: nat, blockGasLimit: nat, answer: FcuAnswer)
    returns (r: Start)
    modifies recovery
    ensures var parent, before := engine.View().head, old(recovery.View());
            && (r.BuildStarted? ==>
                  && recovery.View() == After(before, parent, Started(r.id, r.count))
                  && queue.Some? && r.count <= |queue.value| && r.count <= Allowed(before, parent, configured)
                  && TotalGas(queue.value[..r.count]) <= blockGasLimit
                  && (r.count < |queue.value| && r.count < Allowed(before, parent, configured) ==>
                        TotalGas(queue.value[..r.count + 1]) > blockGasLimit))
            && (!r.BuildStarted? ==> recovery.View() == After(before, parent, StartFailed))
    ensures r.QueryFailed? <==> queue.None?
    ensures r.BuildStarted? <==> queue.Some? && answer.Answer? && answer.payloadId.Some?
    ensures r.BuildStarted? ==> Some(r.id) == answer.payloadId
    ensures r.BuildFailed? ==> r.result == if answer.Unreachable? then TransportFailed else Responded(answer.status, None)
  {
    var parent := engine.fcs.head;
    var maxMessages := recovery.MaxMessages(parent, configured);
    if queue.None? {
      return QueryFailed;
    }
    var messages := queue.value[..Min(maxMessages, |queue.value|)];
    var count := SelectMessages(messages, blockGasLimit);
    assert messages[..count] == queue.value[..count];
    assert count < |messages| ==> messages[..count + 1] == queue.value[..count + 1];
    var result := engine.Build(None, answer);
    if !result.Responded? || result.payloadId.None? {
      return BuildFailed(result);
    }
    recovery.RecordRequest(result.payloadId.value, parent, count);
    return BuildStarted(result.payloadId.value, count);
  }

  /** A payload the Engine returned, and whether it converts into a block with its own hash. */
  datatype BuiltPayload = BuiltPayload(info: BlockInfo, isEmpty: bool, converts: bool, hashMatches: bool)

  datatype Sealing =
    | Sealed(block: BlockInfo)
    | Discarded
    | GetPayloadFailed
    | PayloadError
    | InvalidPayload
    | FcuNotValid
    | EngineFailed(result: FcuResult)

  /**
   Returns a block exactly when the Engine confirmed it as the head; on every other path the
   local forkchoice state is unchanged.
   */
  method FinalizePayloadBuilding(engine: Engine, recovery: L1MessageBuildRecovery, id: nat,
                                 payload: Option<BuiltPayload>, allowEmptyBlocks: bool, answer: FcuAnswer)
    returns (r: Sealing)
    modifies engine, recovery
    ensures r.Sealed? <==>
              && payload.Some? && (!payload.value.isEmpty || allowEmptyBlocks)
              && payload.value.converts && payload.value.hashMatches
              && Confirmed(old(engine.View()), (UpdateFcsChecked(Some(payload.value.info), None, None), answer))
    ensures r.Sealed? ==> r.block == payload.value.info && engine.View() == old(engine.View()).(head := r.block)
    ensures r.GetPayloadFailed? <==> payload.None?
    ensures r.Discarded? <==> payload.Some? && payload.value.isEmpty && !allowEmptyBlocks
    ensures r.PayloadError? <==>
              && payload.Some? && (!payload.value.isEmpty || allowEmptyBlocks)
              && !(payload.value.converts && payload.value.hashMatches)
    ensures r.InvalidPayload? || r.FcuNotValid? ==>
              answer.Answer? && answer.status != VALID && (r.InvalidPayload? <==> answer.status == INVALID)
    ensures !r.Sealed? ==> engine.View() == old(engine.View())
    ensures recovery.View() == AfterResult(old(recovery.View()), id, old(engine.View()).head, payload.Some?)
  {
    var _ := recovery.RecordResult(id, engine.fcs.head, payload.Some?);
    if payload.None? {
      return GetPayloadFailed;
    }
    var built := payload.value;
    if built.isEmpty && !allowEmptyBlocks {
      return Discarded;
    }
    if !built.converts || !built.hashMatches {
      return PayloadError;
    }
    var result := engine.UpdateChecked(Some(built.info), None, None, answer);
    if !result.Responded? {
      return EngineFailed(result);
    }
    if result.status == INVALID {
      return InvalidPayload;
    }
    if result.status != VALID {
      return FcuNotValid;
    }
    return Sealed(built.info);
  }
}
