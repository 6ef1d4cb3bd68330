/**
 Comparing a derived batch with the L2 chain: the per-block actions, the rule that rebuilds the
 whole suffix from the first mismatch on, and the collapsing of consecutive updates.
 */
module Consolidation {
  import opened Primitives

  /** The optional header fields a batch pins down. */
  datatype BlockDataHint = BlockDataHint(
    extraData: Option<Bytes>,
    stateRoot: Option<Hash>,
    coinbase: Option<nat>,
    nonce: Option<nat>)

  datatype PayloadAttributes = PayloadAttributes(
    timestamp: nat,
    prevRandao: Hash,
    transactions: Option<seq<Bytes>>,
    gasLimit: Option<nat>,
    hint: BlockDataHint)

  datatype DerivedAttributes = DerivedAttributes(number: nat, baseFee: nat, attributes: PayloadAttributes)

  datatype L2Block = L2Block(
    info: BlockInfo,
    baseFee: Option<nat>,
    gasLimit: nat,
    timestamp: nat,
    mixHash: Option<Hash>,
    extraData: Bytes,
    stateRoot: Hash,
    beneficiary: nat,
    nonce: Option<nat>,
    transactions: seq<Bytes>)

  /** What is persisted of a block: its identity and the L1 messages it includes. */
  datatype L2BlockInfo = L2BlockInfo(info: BlockInfo, l1Messages: seq<Bytes>)

  function InfoOf(b: L2Block): L2BlockInfo {
    L2BlockInfo(b.info, L1Messages(b.transactions))
  }

  function Default<T>(o: Option<T>, d: T): T {
    if o.Some? then o.value else d
  }

  predicate Agree<T(==)>(pinned: Option<T>, actual: T) {
    pinned.Some? ==> pinned.value == actual
  }

  /** The block is the one the attributes describe. */
  predicate BlockMatches(d: DerivedAttributes, b: L2Block) {
    && b.baseFee == Some(d.baseFee)
    && Agree(d.attributes.gasLimit, b.gasLimit)
    && d.attributes.transactions == Some(b.transactions)
    && b.timestamp == d.attributes.timestamp
    && Default(b.mixHash, ZERO_HASH) == d.attributes.prevRandao
    && Agree(d.attributes.hint.extraData, b.extraData)
    && Agree(d.attributes.hint.stateRoot, b.stateRoot)
    && Agree(d.attributes.hint.coinbase, b.beneficiary)
    && Default(d.attributes.hint.nonce, 0) == Default(b.nonce, 0)
  }

  datatype Action = Skip(block: L2BlockInfo) | UpdateTo(block: L2BlockInfo) | Rebuild(index: nat)

  // ---- Planning ----

  /** The action for one block, judged against the chain as it stands. */
  function Compare(attrs: seq<DerivedAttributes>, chain: map<nat, L2Block>, finalized: nat, i: nat): Action
    requires i < |attrs|
  {
    var d := attrs[i];
    if d.number !in chain || !BlockMatches(d, chain[d.number]) then Rebuild(i)
    else if d.number <= finalized then Skip(InfoOf(chain[d.number]))
    else UpdateTo(InfoOf(chain[d.number]))
  }

  /** The first index at or after `i` that must be rebuilt. */
  function FirstRebuild(attrs: seq<DerivedAttributes>, chain: map<nat, L2Block>, finalized: nat, i: nat): (r: nat)
    requires i <= |attrs|
    ensures i <= r <= |attrs|
    ensures forall k :: i <= k < r ==> !Compare(attrs, chain, finalized, k).Rebuild?
    ensures r < |attrs| ==> Compare(attrs, chain, finalized, r).Rebuild?
    decreases |attrs| - i
  {
    if i == |attrs| || Compare(attrs, chain, finalized, i).Rebuild? then i
    else FirstRebuild(attrs, chain, finalized, i + 1)
  }

  /** Every rebuild names one of the batch's attributes. */
  predicate InRange(actions: seq<Action>, n: nat) {
    forall x :: x in actions && x.Rebuild? ==> x.index < n
  }

  /** What is done with each block: compared on its own up to the first mismatch, rebuilt after it. */
  function Plan(attrs: seq<DerivedAttributes>, chain: map<nat, L2Block>, finalized: nat): (r: seq<Action>)
    ensures InRange(r, |attrs|)
  {
    var first := FirstRebuild(attrs, chain, finalized, 0);
    seq(|attrs|, i requires 0 <= i < |attrs| =>
      if i < first then Compare(attrs, chain, finalized, i) else Rebuild(i))
  }

  method ReconcileBatch(attrs: seq<DerivedAttributes>, chain: map<nat, L2Block>, finalized: nat)
    returns (actions: seq<Action>)
    ensures actions == Plan(attrs, chain, finalized)
  {
    actions := [];
    for i := 0 to |attrs|
      invariant |actions| == i
      invariant forall k :: 0 <= k < i ==> actions[k] == Compare(attrs, chain, finalized, k)
    {
      actions := actions + [Compare(attrs, chain, finalized, i)];
    }
    var first := 0;
    while first < |actions| && !actions[first].Rebuild?
      invariant first <= |actions|
      invariant forall k :: 0 <= k < first ==> !actions[k].Rebuild?
    {
      first := first + 1;
    }
    assert first == FirstRebuild(attrs, chain, finalized, 0);
    for index := first to |actions|
      invariant |actions| == |attrs|
      invariant forall k :: 0 <= k < first ==> actions[k] == Compare(attrs, chain, finalized, k)
      invariant forall k :: first <= k < index ==> actions[k] == Rebuild(k)
    {
      actions := actions[index := Rebuild(index)];
    }
  }

  // ---- Collapsing ----

  function Push(acc: seq<Action>, next: Action): (r: seq<Action>)
    ensures forall x :: x in r ==> x in acc || x == next
  {
    if acc == [] then (if next.Skip? then [] else [next])
    else if acc[|acc| - 1].UpdateTo? && next.UpdateTo? then acc[|acc| - 1 := next]
    else acc + [next]
  }

  function Collapsed(actions: seq<Action>): (r: seq<Action>)
    ensures forall x :: x in r ==> x in actions
  {
    if actions == [] then []
    else Push(Collapsed(actions[..|actions| - 1]), actions[|actions| - 1])
  }

  method AggregateActions(actions: seq<Action>) returns (aggregated: seq<Action>)
    ensures aggregated == Collapsed(actions)
  {
    aggregated := [];
    for i := 0 to |actions|
      invariant aggregated == Collapsed(actions[..i])
    {
      var next := actions[i];
      if aggregated != [] {
        if aggregated[|aggregated| - 1].UpdateTo? && next.UpdateTo? {
          aggregated := aggregated[|aggregated| - 1 := next];
        } else {
          aggregated := aggregated + [next];
        }
      } else if !next.Skip? {
        aggregated := aggregated + [next];
      }
      assert actions[..i + 1][..i] == actions[..i];
    }
    assert actions[..|actions|] == actions;
  }

  // ---- The shape of a plan ----

  /** Block numbers are positive and strictly increasing. */
  ghost predicate Ascending(attrs: seq<DerivedAttributes>) {
    && (forall i :: 0 <= i < |attrs| ==> attrs[i].number > 0)
    && (forall i, j :: 0 <= i < j < |attrs| ==> attrs[i].number < attrs[j].number)
  }

  /** The provider answers with the block it was asked for. */
  ghost predicate Numbered(chain: map<nat, L2Block>) {
    forall n :: n in chain ==> chain[n].info.number == n
  }

  /** How many leading attributes are at or below the finalized number. */
  function FinalizedCount(attrs: seq<DerivedAttributes>, finalized: nat): (n: nat)
    ensures n <= |attrs|
    ensures forall i :: 0 <= i < n ==> attrs[i].number <= finalized
    ensures n < |attrs| ==> attrs[n].number > finalized
  {
    if attrs == [] || attrs[0].number > finalized then 0
    else 1 + FinalizedCount(attrs[1..], finalized)
  }

  /** A plan is skips, then updates, then rebuilds: `[..a)`, `[a..b)`, `[b..)`. */
  ghost predicate Shaped(actions: seq<Action>, a: nat, b: nat) {
    && a <= b <= |actions|
    && (forall i :: 0 <= i < a ==> actions[i].Skip?)
    && (forall i :: a <= i < b ==> actions[i].UpdateTo?)
    && (forall i :: b <= i < |actions| ==> actions[i] == Rebuild(i))
  }

  /** A block that is kept is the one the attributes describe. */
  lemma KeptBlock(attrs: seq<DerivedAttributes>, chain: map<nat, L2Block>, finalized: nat, i: nat)
    requires Numbered(chain) && i < |attrs| && !Compare(attrs, chain, finalized, i).Rebuild?
    ensures var action := Compare(attrs, chain, finalized, i);
            && action.block.info.number == attrs[i].number && attrs[i].attributes.transactions.Some?
            && action.block.l1Messages == L1Messages(attrs[i].attributes.transactions.value)
            && (action.Skip? <==> attrs[i].number <= finalized)
  {
  }

  lemma PlanShape(attrs: seq<DerivedAttributes>, chain: map<nat, L2Block>, finalized: nat) returns (a: nat, b: nat)
    requires Ascending(attrs) && Numbered(chain)
    ensures Shaped(Plan(attrs, chain, finalized), a, b)
    ensures b == FirstRebuild(attrs, chain, finalized, 0)
    ensures forall i :: 0 <= i < b ==>
              var block := Plan(attrs, chain, finalized)[i].block;
              && block.info.number == attrs[i].number && attrs[i].attributes.transactions.Some?
              && block.l1Messages == L1Messages(attrs[i].attributes.transactions.value)
    ensures forall i :: a <= i < b ==> attrs[i].number > finalized
    ensures forall i :: 0 <= i < a ==> attrs[i].number <= finalized
  {
    b := FirstRebuild(attrs, chain, finalized, 0);
    var n := FinalizedCount(attrs, finalized);
    a := if n <= b then n else b;
    AboveFinalized(attrs, finalized, n);
    forall i | 0 <= i < b {
      KeptBlock(attrs, chain, finalized, i);
    }
  }

  lemma AboveFinalized(attrs: seq<DerivedAttributes>, finalized: nat, n: nat)
    requires Ascending(attrs) && n <= |attrs| && (n < |attrs| ==> attrs[n].number > finalized)
    ensures forall i :: n <= i < |attrs| ==> attrs[i].number > finalized
  {
    assert n < |attrs| ==> forall i :: n < i < |attrs| ==> attrs[n].number < attrs[i].number;
  }

  lemma {:induction false} CollapsedUpdates(actions: seq<Action>, a: nat)
    requires Shaped(actions, a, |actions|)
    ensures Collapsed(actions) == if a < |actions| then [actions[|actions| - 1]] else []
    decreases |actions|
  {
    if actions != [] {
      var k := |actions| - 1;
      CollapsedUpdates(actions[..k], if a <= k then a else k);
    }
  }

  /** Collapsing keeps the last update and every rebuild, and drops the leading skips. */
  lemma {:induction false} CollapsedShape(actions: seq<Action>, a: nat, b: nat)
    requires Shaped(actions, a, b)
    ensures Collapsed(actions) == (if a < b then [actions[b - 1]] else []) + actions[b..]
    decreases |actions|
  {
    if b == |actions| {
      CollapsedUpdates(actions, a);
      assert actions[b..] == [];
    } else {
      var k := |actions| - 1;
      CollapsedShape(actions[..k], a, b);
      assert actions[b..] == actions[..k][b..] + [actions[k]];
      assert Push(Collapsed(actions[..k]), actions[k]) == Collapsed(actions[..k]) + [actions[k]];
    }
  }

  /** A skip survives collapsing exactly when it comes after an action that is not a skip. */
  lemma {:induction false} SkipSurvives(actions: seq<Action>)
    ensures Collapsed(actions) == [] <==> forall i :: 0 <= i < |actions| ==> actions[i].Skip?
    ensures (exists k :: 0 <= k < |Collapsed(actions)| && Collapsed(actions)[k].Skip?) <==>
            exists i, j :: 0 <= i < j < |actions| && !actions[i].Skip? && actions[j].Skip?
    decreases |actions|
  {
    if actions != [] {
      var last := |actions| - 1;
      var front := actions[..last];
      SkipSurvives(front);
      assert forall i :: 0 <= i < last ==> front[i] == actions[i];
      var c, f := Collapsed(actions), Collapsed(front);
      if exists i, j :: 0 <= i < j < |actions| && !actions[i].Skip? && actions[j].Skip? {
        var i, j :| 0 <= i < j < |actions| && !actions[i].Skip? && actions[j].Skip?;
        if j == last {
          assert c[|c| - 1].Skip?;
        } else {
          var k :| 0 <= k < |f| && f[k].Skip?;
          assert c[k] == f[k];
        }
      }
      if k :| 0 <= k < |c| && c[k].Skip? {
        if k < |f| && f[k].Skip? {
          var i, j :| 0 <= i < j < |front| && !front[i].Skip? && front[j].Skip?;
          assert !actions[i].Skip? && actions[j].Skip?;
        } else {
          var i :| 0 <= i < |front| && !front[i].Skip?;
          assert !actions[i].Skip? && actions[last].Skip?;
        }
      }
    }
  }
}
