/**
 The local forkchoice state and the Engine wrapper around it. The execution client is an
 adversary: every call carries the answer it would get, and any answer may come back.
 */
module ForkchoiceEngine {
  import opened Primitives

  // ---- The forkchoice state ----

  datatype Fcs = Fcs(head: BlockInfo, safe: BlockInfo, finalized: BlockInfo)

  predicate WellFormed(s: Fcs) {
    s.head.number >= s.safe.number >= s.finalized.number
  }

  datatype FcsError = NoUpdateProvided | FinalizedNotIncreasing | HeadBelowSafe | SafeBelowFinalized

  datatype Candidate = Accept(state: Fcs) | Reject(error: FcsError)

  function Or(update: Option<BlockInfo>, current: BlockInfo): BlockInfo {
    if update.Some? then update.value else current
  }

  function Update(s: Fcs, head: Option<BlockInfo>, safe: Option<BlockInfo>, finalized: Option<BlockInfo>): Candidate {
    var next := Fcs(Or(head, s.head), Or(safe, s.safe), Or(finalized, s.finalized));
    if head.None? && safe.None? && finalized.None? then Reject(NoUpdateProvided)
    else if next.finalized.number <= s.finalized.number && next.finalized != s.finalized then Reject(FinalizedNotIncreasing)
    else if next.head.number < next.safe.number then Reject(HeadBelowSafe)
    else if next.safe.number < next.finalized.number then Reject(SafeBelowFinalized)
    else Accept(next)
  }

  /** Finality moves strictly up or not at all: same number, same block. */
  predicate Advances(a: BlockInfo, b: BlockInfo) {
    b == a || a.number < b.number
  }

  /** The forkchoice state as the node holds it: validated, then assigned in place. */
  class ForkchoiceState {
    var head: BlockInfo
    var safe: BlockInfo
    var finalized: BlockInfo

    ghost function View(): Fcs
      reads this
    {
      Fcs(head, safe, finalized)
    }

    constructor (head: BlockInfo, safe: BlockInfo, finalized: BlockInfo)
      ensures View() == Fcs(head, safe, finalized)
    {
      this.head, this.safe, this.finalized := head, safe, finalized;
    }

    /** Changes nothing unless the whole candidate is coherent. */
    method TryUpdate(head: Option<BlockInfo>, safe: Option<BlockInfo>, finalized: Option<BlockInfo>)
      returns (error: Option<FcsError>)
      modifies this
      ensures match Update(old(View()), head, safe, finalized)
              case Accept(next) => error == None && View() == next
              case Reject(e) => error == Some(e) && View() == old(View())
      ensures error.None? ==> WellFormed(View()) && Advances(old(this.finalized), this.finalized)
    {
      if head.None? && safe.None? && finalized.None? {
        return Some(NoUpdateProvided);
      }
      var newFinalized := Or(finalized, this.finalized);
      var newSafe := Or(safe, this.safe);
      var newHead := Or(head, this.head);
      if newFinalized.number <= this.finalized.number && newFinalized != this.finalized {
        return Some(FinalizedNotIncreasing);
      }
      if newHead.number < newSafe.number {
        return Some(HeadBelowSafe);
      }
      if newSafe.number < newFinalized.number {
        return Some(SafeBelowFinalized);
      }
      this.head, this.safe, this.finalized := newHead, newSafe, newFinalized;
      return None;
    }
  }

  // ---- The Engine ----

  datatype PayloadStatus = VALID | INVALID | SYNCING | ACCEPTED

  /** What the client would answer to one `forkchoiceUpdated` call. */
  datatype FcuAnswer = Unreachable | Answer(status: PayloadStatus, payloadId: Option<nat>)

  datatype FcuResult =
    | Responded(status: PayloadStatus, payloadId: Option<nat>)
    | FcsFailed(error: FcsError)
    | TransportFailed
    | Panicked

  datatype Op =
    | UpdateFcs(head: Option<BlockInfo>, safe: Option<BlockInfo>, finalized: Option<BlockInfo>)
    | UpdateFcsChecked(head: Option<BlockInfo>, safe: Option<BlockInfo>, finalized: Option<BlockInfo>)
    | OptimisticSync(block: BlockInfo)
    | BuildPayload(parent: Option<BlockInfo>)

  /** The state an operation asks the client to adopt, if it gets as far as asking. */
  function Requested(s: Fcs, op: Op): Candidate {
    match op
    case UpdateFcs(h, sf, f) => Update(s, h, sf, f)
    case UpdateFcsChecked(h, sf, f) => Update(s, h, sf, f)
    case OptimisticSync(b) => Update(s, Some(b), None, None)
    case BuildPayload(parent) => if parent.Some? then Update(s, parent, None, None) else Accept(s)
  }

  /** Which answers make the operation adopt the requested state locally. */
  predicate Commits(op: Op, status: PayloadStatus) {
    match op
    case UpdateFcs(_, _, _) => status == VALID || status == SYNCING
    case UpdateFcsChecked(_, _, _) => status == VALID
    case OptimisticSync(_) => status != INVALID
    case BuildPayload(_) => false
  }

  function Perform(s: Fcs, op: Op, answer: FcuAnswer): (Fcs, FcuResult) {
    match Requested(s, op)
    case Reject(e) => (s, FcsFailed(e))
    case Accept(next) =>
      match answer
      case Unreachable => (s, TransportFailed)
      case Answer(status, id) =>
        if op.UpdateFcs? && status == ACCEPTED then (s, Panicked)
        else (if Commits(op, status) then next else s, Responded(status, id))
  }

  class Engine {
    var fcs: ForkchoiceState

    ghost function View(): Fcs
      reads this, fcs
    {
      fcs.View()
    }

    constructor (fcs: ForkchoiceState)
      ensures this.fcs == fcs
    {
      this.fcs := fcs;
    }

    method Clone() returns (copy: ForkchoiceState)
      ensures fresh(copy) && copy.View() == View()
    {
      copy := new ForkchoiceState(fcs.head, fcs.safe, fcs.finalized);
    }

    method Update(head: Option<BlockInfo>, safe: Option<BlockInfo>, finalized: Option<BlockInfo>, answer: FcuAnswer)
      returns (r: FcuResult)
      modifies this
      ensures (View(), r) == Perform(old(View()), UpdateFcs(head, safe, finalized), answer)
      ensures fcs == old(fcs) || fresh(fcs)
    {
      var candidate := Clone();
      var error := candidate.TryUpdate(head, safe, finalized);
      if error.Some? {
        return FcsFailed(error.value);
      }
      if answer.Unreachable? {
        return TransportFailed;
      }
      if answer.status == ACCEPTED {
        return Panicked;
      }
      if answer.status != INVALID {
        fcs := candidate;
      }
      return Responded(answer.status, answer.payloadId);
    }

    method UpdateChecked(head: Option<BlockInfo>, safe: Option<BlockInfo>, finalized: Option<BlockInfo>, answer: FcuAnswer)
      returns (r: FcuResult)
      modifies this
      ensures (View(), r) == Perform(old(View()), UpdateFcsChecked(head, safe, finalized), answer)
      ensures fcs == old(fcs) || fresh(fcs)
    {
      var candidate := Clone();
      var error := candidate.TryUpdate(head, safe, finalized);
      if error.Some? {
        return FcsFailed(error.value);
      }
      if answer.Unreachable? {
        return TransportFailed;
      }
      if answer.status == VALID {
        fcs := candidate;
      }
      return Responded(answer.status, answer.payloadId);
    }

    method SyncOptimistically(block: BlockInfo, answer: FcuAnswer) returns (r: FcuResult)
      modifies this
      ensures (View(), r) == Perform(old(View()), OptimisticSync(block), answer)
      ensures fcs == old(fcs) || fresh(fcs)
    {
      var candidate := Clone();
      var error := candidate.TryUpdate(Some(block), None, None);
      if error.Some? {
        return FcsFailed(error.value);
      }
      if answer.Unreachable? {
        return TransportFailed;
      }
      if answer.status != INVALID {
        fcs := candidate;
      }
      return Responded(answer.status, answer.payloadId);
    }

    method Build(parent: Option<BlockInfo>, answer: FcuAnswer) returns (r: FcuResult)
      ensures (View(), r) == Perform(View(), BuildPayload(parent), answer)
      ensures WellFormed(View()) ==> (r.FcsFailed? <==> parent.Some? && parent.value.number < View().safe.number)
    {
      if parent.Some? {
        var candidate := Clone();
        var error := candidate.TryUpdate(parent, None, None);
        if error.Some? {
          return FcsFailed(error.value);
        }
      }
      if answer.Unreachable? {
        return TransportFailed;
      }
      return Responded(answer.status, answer.payloadId);
    }
  }

  // ---- Whole runs ----

  function Run(s: Fcs, calls: seq<(Op, FcuAnswer)>): Fcs
    decreases |calls|
  {
    if calls == [] then s
    else Run(Perform(s, calls[0].0, calls[0].1).0, calls[1..])
  }

  /** An update is accepted exactly when it names a block, is coherent and advances finality. */
  lemma UpdateAccepts(s: Fcs, head: Option<BlockInfo>, safe: Option<BlockInfo>, finalized: Option<BlockInfo>)
    ensures var next := Fcs(Or(head, s.head), Or(safe, s.safe), Or(finalized, s.finalized));
            Update(s, head, safe, finalized) == Accept(next) <==>
            && (head.Some? || safe.Some? || finalized.Some?)
            && WellFormed(next) && Advances(s.finalized, next.finalized)
  {
  }

  /**
   From a well-formed start, every sequence of calls with arbitrary answers keeps
   head >= safe >= finalized, never lowers the finalized block and never replaces it at its height.
   */
  lemma {:induction false} ForkchoiceInvariant(s: Fcs, calls: seq<(Op, FcuAnswer)>)
    requires WellFormed(s)
    ensures WellFormed(Run(s, calls)) && Advances(s.finalized, Run(s, calls).finalized)
    decreases |calls|
  {
    if calls != [] {
      ForkchoiceInvariant(Perform(s, calls[0].0, calls[0].1).0, calls[1..]);
    }
  }

  lemma {:induction false} RunConcat(s: Fcs, a: seq<(Op, FcuAnswer)>, b: seq<(Op, FcuAnswer)>)
    ensures Run(s, a + b) == Run(Run(s, a), b)
    decreases |a|
  {
    if a == [] {
      assert a + b == b;
    } else {
      assert (a + b)[1..] == a[1..] + b;
      RunConcat(Perform(s, a[0].0, a[0].1).0, a[1..], b);
    }
  }

  /**
   When a call changes the local state, from a well-formed one: it names a block, the state asked for is
   coherent and advances finality, and the client answers VALID, SYNCING to a plain update, or anything
   but INVALID to an optimistic sync. Then exactly the blocks named change; a build never changes any.
   */
  lemma AdoptsExactly(s: Fcs, op: Op, answer: FcuAnswer)
    requires WellFormed(s)
    ensures var head := match op
              case UpdateFcs(h, _, _) => h
              case UpdateFcsChecked(h, _, _) => h
              case OptimisticSync(b) => Some(b)
              case BuildPayload(_) => None;
            var safe := if op.UpdateFcs? || op.UpdateFcsChecked? then op.safe else None;
            var finalized := if op.UpdateFcs? || op.UpdateFcsChecked? then op.finalized else None;
            var asked := Fcs(Or(head, s.head), Or(safe, s.safe), Or(finalized, s.finalized));
            Perform(s, op, answer).0 ==
            if && WellFormed(asked) && Advances(s.finalized, asked.finalized) && answer.Answer?
               && (answer.status == VALID || (op.UpdateFcs? && answer.status == SYNCING) ||
                   (op.OptimisticSync? && answer.status != INVALID))
            then asked else s
  {
  }

  /** The call asked for a coherent state and the client confirmed it. */
  predicate Confirmed(s: Fcs, call: (Op, FcuAnswer)) {
    call.0.UpdateFcsChecked? && Requested(s, call.0).Accept? && call.1.Answer? && call.1.status == VALID
  }

  /**
   A run of checked updates and payload builds mirrors the client: its state is exactly what the
   last confirmed call asked for, or the initial one when no call was confirmed (`i == |calls|`).
   */
  lemma {:induction false} ConfirmedMirror(s: Fcs, calls: seq<(Op, FcuAnswer)>) returns (i: nat)
    requires forall k :: 0 <= k < |calls| ==> calls[k].0.UpdateFcsChecked? || calls[k].0.BuildPayload?
    ensures i <= |calls|
    ensures i == |calls| ==>
              Run(s, calls) == s && forall k :: 0 <= k < |calls| ==> !Confirmed(Run(s, calls[..k]), calls[k])
    ensures i < |calls| ==>
              && Confirmed(Run(s, calls[..i]), calls[i])
              && Requested(Run(s, calls[..i]), calls[i].0) == Accept(Run(s, calls))
              && forall k :: i < k < |calls| ==> !Confirmed(Run(s, calls[..k]), calls[k])
    decreases |calls|
  {
    i := 0;
    if calls != [] {
      var front, last := calls[..|calls| - 1], calls[|calls| - 1];
      assert calls == front + [last];
      RunConcat(s, front, [last]);
      assert Run(s, calls) == Perform(Run(s, front), last.0, last.1).0;
      assert forall k :: 0 <= k < |front| ==> calls[..k] == front[..k] && calls[k] == front[k];
      var j := ConfirmedMirror(s, front);
      i := if Confirmed(Run(s, front), last) then |calls| - 1 else if j < |front| then j else |calls|;
    }
  }
}
