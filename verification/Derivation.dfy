/** Deriving payload attributes from a decoded batch: every fetched L1 message is accounted for. */
module Derivation {
  import opened Primitives
  import opened Consolidation

  datatype L1Message = L1Message(queueIndex: nat, encoded: Bytes)

  datatype BlockData = BlockData(
    number: nat,
    timestamp: nat,
    baseFee: nat,
    gasLimit: nat,
    numL1Messages: nat,
    transactions: seq<Bytes>)

  /** Where a batch's messages start: at a queue index, or after the message with a queue hash; it may say neither. */
  datatype QueueCursor = InitialIndex(index: nat) | AfterHash(previous: Hash) | NoCursor

  datatype DeriveError =
    | MissingQueueCursor
    | ProviderFailed
    | InvalidL1MessagesCount(expected: nat, got: nat)
    | L1MessageTransactionInBatch
    | MissingL1Message(number: nat)
    | CacheFailed
    | Panicked

  datatype Result<T> = Ok(value: T) | Err(error: DeriveError)

  /** The L1 provider: messages from an index or from a queue hash on; `None` is a failed query. */
  datatype Provider = Provider(
    fromIndex: (nat, nat) -> Option<seq<L1Message>>,
    fromHash: (Hash, nat) -> Option<seq<L1Message>>)

  // ---- Fetching the messages ----

  /** How many L1 messages the first `n` blocks claim. */
  function Offset(blocks: seq<BlockData>, n: nat): nat
    requires n <= |blocks|
  {
    if n == 0 then 0 else Offset(blocks, n - 1) + blocks[n - 1].numL1Messages
  }

  function Total(blocks: seq<BlockData>): nat {
    Offset(blocks, |blocks|)
  }

  /** The messages are the provider's answer for as many as the blocks claim, from the cursor on. */
  ghost predicate FetchedFrom(provider: Provider, blocks: seq<BlockData>, cursor: QueueCursor, v2Start: nat,
                              messages: seq<L1Message>)
  {
    && |messages| == Total(blocks)
    && match cursor
       case InitialIndex(i) => provider.fromIndex(i, Total(blocks)) == Some(messages)
       case AfterHash(h) =>
         if h == ZERO_HASH then provider.fromIndex(v2Start, Total(blocks)) == Some(messages)
         else exists first :: provider.fromHash(h, Total(blocks) + 1) == Some([first] + messages)
       case NoCursor => false
  }

  /** The query for the messages fails. */
  ghost predicate QueryFails(provider: Provider, blocks: seq<BlockData>, cursor: QueueCursor, v2Start: nat) {
    match cursor
    case InitialIndex(i) => provider.fromIndex(i, Total(blocks)).None?
    case AfterHash(h) =>
      if h == ZERO_HASH then provider.fromIndex(v2Start, Total(blocks)).None? else provider.fromHash(h, Total(blocks) + 1).None?
    case NoCursor => false
  }

  /** Queries the messages a batch claims and insists on getting exactly that many. */
  method FetchMessages(provider: Provider, blocks: seq<BlockData>, cursor: QueueCursor, v2Start: nat)
    returns (r: Result<seq<L1Message>>)
    ensures r.Ok? ==> FetchedFrom(provider, blocks, cursor, v2Start, r.value)
    ensures r.Ok? <==> exists messages :: FetchedFrom(provider, blocks, cursor, v2Start, messages)
    ensures r == Err(MissingQueueCursor) <==> cursor.NoCursor?
    ensures r == Err(ProviderFailed) <==> QueryFails(provider, blocks, cursor, v2Start)
    ensures r.Err? && r.error.InvalidL1MessagesCount? ==> r.error.expected == Total(blocks) != r.error.got
    ensures r.Err? ==> r.error.MissingQueueCursor? || r.error.ProviderFailed? || r.error.InvalidL1MessagesCount? || r.error.Panicked?
  {
    var total := 0;
    for i := 0 to |blocks|
      invariant total == Offset(blocks, i)
    {
      total := total + blocks[i].numL1Messages;
    }
    var messages: seq<L1Message>;
    match cursor {
      case InitialIndex(i) =>
        var answer := provider.fromIndex(i, total);
        if answer.None? {
          return Err(ProviderFailed);
        }
        messages := answer.value;
      case AfterHash(h) =>
        if h == ZERO_HASH {
          var answer := provider.fromIndex(v2Start, total);
          if answer.None? {
            return Err(ProviderFailed);
          }
          messages := answer.value;
        } else {
          var answer := provider.fromHash(h, total + 1);
          if answer.None? {
            return Err(ProviderFailed);
          }
          if answer.value == [] {
            return Err(Panicked);
          }
          messages := answer.value[1..];
          assert answer.value == [answer.value[0]] + messages;
        }
      case NoCursor =>
        return Err(MissingQueueCursor);
    }
    if |messages| != total {
      return Err(InvalidL1MessagesCount(total, |messages|));
    }
    assert FetchedFrom(provider, blocks, cursor, v2Start, messages);
    return Ok(messages);
  }

  // ---- Assigning the messages to blocks ----

  /** The bitmap says message `i` is skipped; it may be shorter than the message list. */
  predicate IsSkipped(bitmap: seq<bool>, i: nat) {
    i < |bitmap| && bitmap[i]
  }

  /** The messages of a window that are not skipped, in queue order. */
  function Included(messages: seq<L1Message>, bitmap: seq<bool>, from: nat, end: nat): (r: seq<Bytes>)
    requires from <= end <= |messages|
    decreases end
  {
    if from == end then []
    else Included(messages, bitmap, from, end - 1) + if IsSkipped(bitmap, end - 1) then [] else [messages[end - 1].encoded]
  }

  /** The queue indices of the first `n` messages that are skipped. */
  function Skipped(messages: seq<L1Message>, bitmap: seq<bool>, n: nat): (r: seq<nat>)
    requires n <= |messages|
  {
    if n == 0 then []
    else Skipped(messages, bitmap, n - 1) + if IsSkipped(bitmap, n - 1) then [messages[n - 1].queueIndex] else []
  }

  ghost predicate OnlyL2(txs: seq<Bytes>) {
    forall i :: 0 <= i < |txs| ==> !IsL1Message(txs[i])
  }

  method EnsureOnlyL2(txs: seq<Bytes>) returns (ok: bool)
    ensures ok <==> OnlyL2(txs)
  {
    for i := 0 to |txs|
      invariant forall k :: 0 <= k < i ==> !IsL1Message(txs[k])
    {
      if IsL1Message(txs[i]) {
        return false;
      }
    }
    return true;
  }

  /** The attributes derived for a block with these included messages. */
  function AttributesFor(b: BlockData, included: seq<Bytes>, hint: BlockDataHint): DerivedAttributes {
    DerivedAttributes(b.number, b.baseFee,
                      PayloadAttributes(b.timestamp, ZERO_HASH, Some(included + b.transactions), Some(b.gasLimit), hint))
  }

  const NO_HINT := BlockDataHint(None, None, None, None)

  /**
   Attribute `k` describes block `k`: first the included messages of its window, in queue order,
   then its own L2 transactions, with its number, base fee, timestamp and gas limit.
   */
  ghost predicate Derived(blocks: seq<BlockData>, messages: seq<L1Message>, bitmap: seq<bool>, k: nat, d: DerivedAttributes) {
    && k < |blocks| && Offset(blocks, k + 1) <= |messages|
    && OnlyL2(blocks[k].transactions)
    && d.number == blocks[k].number && d.baseFee == blocks[k].baseFee
    && d.attributes.timestamp == blocks[k].timestamp && d.attributes.gasLimit == Some(blocks[k].gasLimit)
    && d.attributes.prevRandao == ZERO_HASH && d.attributes.transactions.Some?
    && var included := Included(messages, bitmap, Offset(blocks, k), Offset(blocks, k + 1));
       && |included| <= |d.attributes.transactions.value|
       && d.attributes.transactions.value[..|included|] == included
       && d.attributes.transactions.value[|included|..] == blocks[k].transactions
  }

  /** The hint is what the cache holds for the block, or the empty one. */
  predicate Cached(cache: nat -> Option<Option<BlockDataHint>>, number: nat, hint: BlockDataHint) {
    cache(number).Some? && hint == if cache(number).value.Some? then cache(number).value.value else NO_HINT
  }

  /** No block impersonates an L1 message and the cache answers for every one. */
  ghost predicate Derives(blocks: seq<BlockData>, cache: nat -> Option<Option<BlockDataHint>>) {
    forall k :: 0 <= k < |blocks| ==> OnlyL2(blocks[k].transactions) && cache(blocks[k].number).Some?
  }

  lemma {:induction false} OffsetGrows(blocks: seq<BlockData>, m: nat, n: nat)
    requires m <= n <= |blocks|
    ensures Offset(blocks, m) <= Offset(blocks, n)
    decreases n
  {
    if m < n {
      OffsetGrows(blocks, m, n - 1);
    }
  }

  /** Takes the next `count` messages: skipped ones are recorded, the others are included. */
  method TakeMessages(messages: seq<L1Message>, bitmap: seq<bool>, at: nat, count: nat, skippedBefore: seq<nat>)
    returns (txs: seq<Bytes>, skipped: seq<nat>, missing: bool)
    requires at <= |messages| ==> skippedBefore == Skipped(messages, bitmap, at)
    ensures missing ==> |messages| < at + count
    ensures at + count <= |messages| ==>
              txs == Included(messages, bitmap, at, at + count) && skipped == Skipped(messages, bitmap, at + count)
  {
    txs, skipped, missing := [], skippedBefore, false;
    for k := 0 to count
      invariant !missing
      invariant at + k <= |messages| ==>
                  txs == Included(messages, bitmap, at, at + k) && skipped == Skipped(messages, bitmap, at + k)
    {
      var next := at + k;
      if IsSkipped(bitmap, next) {
        if next < |messages| {
          skipped := skipped + [messages[next].queueIndex];
        }
      } else {
        if next >= |messages| {
          missing := true;
          return;
        }
        txs := txs + [messages[next].encoded];
      }
    }
  }

  /**
   Derives every block. On success attribute `k` holds exactly the messages of its own window
   that are not skipped, then its own transactions, none of which impersonates an L1 message, and
   exactly the messages with a set bit are recorded as skipped. A message can only be missing
   when fewer were fetched than the blocks claim.
   */
  method DeriveBlocks(blocks: seq<BlockData>, messages: seq<L1Message>, bitmap: seq<bool>,
                      cache: nat -> Option<Option<BlockDataHint>>)
    returns (r: Result<(seq<DerivedAttributes>, seq<nat>)>)
    ensures r.Ok? && Total(blocks) == |messages| ==>
              && |r.value.0| == |blocks|
              && (forall k :: 0 <= k < |blocks| ==> Derived(blocks, messages, bitmap, k, r.value.0[k]))
              && (forall k :: 0 <= k < |blocks| ==> Cached(cache, blocks[k].number, r.value.0[k].attributes.hint))
              && r.value.1 == Skipped(messages, bitmap, |messages|)
    ensures Total(blocks) == |messages| ==> (r.Ok? <==> Derives(blocks, cache))
    ensures r.Err? && r.error.MissingL1Message? ==> |messages| < Total(blocks)
    ensures r == Err(CacheFailed) ==> exists k :: 0 <= k < |blocks| && cache(blocks[k].number).None?
    ensures r == Err(L1MessageTransactionInBatch) ==> exists k :: 0 <= k < |blocks| && !OnlyL2(blocks[k].transactions)
  {
    var attributes, skipped := [], [];
    var at := 0;
    for i := 0 to |blocks|
      invariant at == Offset(blocks, i) && |attributes| == i
      invariant at <= |messages| ==> forall k :: 0 <= k < i ==> Derived(blocks, messages, bitmap, k, attributes[k])
      invariant at <= |messages| ==> skipped == Skipped(messages, bitmap, at)
      invariant forall k :: 0 <= k < i ==>
                  OnlyL2(blocks[k].transactions) && Cached(cache, blocks[k].number, attributes[k].attributes.hint)
    {
      OffsetGrows(blocks, i + 1, |blocks|);
      var derived := DeriveBlock(blocks, i, messages, bitmap, at, skipped, cache);
      if derived.Err? {
        return Err(derived.error);
      }
      attributes, skipped := attributes + [derived.value.0], derived.value.1;
      at := at + blocks[i].numL1Messages;
    }
    return Ok((attributes, skipped));
  }

  /** Derives block `i`, whose messages start at `at`. */
  method DeriveBlock(blocks: seq<BlockData>, i: nat, messages: seq<L1Message>, bitmap: seq<bool>, at: nat,
                     skippedBefore: seq<nat>, cache: nat -> Option<Option<BlockDataHint>>)
    returns (r: Result<(DerivedAttributes, seq<nat>)>)
    requires i < |blocks| && at == Offset(blocks, i)
    requires at <= |messages| ==> skippedBefore == Skipped(messages, bitmap, at)
    ensures r.Ok? && Offset(blocks, i + 1) <= |messages| ==>
              Derived(blocks, messages, bitmap, i, r.value.0) && r.value.1 == Skipped(messages, bitmap, Offset(blocks, i + 1))
    ensures r.Ok? ==> OnlyL2(blocks[i].transactions) && Cached(cache, blocks[i].number, r.value.0.attributes.hint)
    ensures r == Err(L1MessageTransactionInBatch) <==> !OnlyL2(blocks[i].transactions)
    ensures r.Err? && r.error.MissingL1Message? ==> |messages| < Offset(blocks, i + 1)
    ensures r == Err(CacheFailed) ==> cache(blocks[i].number).None?
    ensures r.Err? ==> r.error.L1MessageTransactionInBatch? || r.error.MissingL1Message? || r.error.CacheFailed?
  {
    var b := blocks[i];
    var onlyL2 := EnsureOnlyL2(b.transactions);
    if !onlyL2 {
      return Err(L1MessageTransactionInBatch);
    }
    var txs, skipped, missing := TakeMessages(messages, bitmap, at, b.numL1Messages, skippedBefore);
    if missing {
      return Err(MissingL1Message(b.number));
    }
    var hint := cache(b.number);
    if hint.None? {
      return Err(CacheFailed);
    }
    return Ok((AttributesFor(b, txs, if hint.value.Some? then hint.value.value else NO_HINT), skipped));
  }

  /** The whole derivation after decoding: the count check makes `MissingL1Message` unreachable. */
  method Derive(provider: Provider, blocks: seq<BlockData>, cursor: QueueCursor, bitmap: seq<bool>, v2Start: nat,
                cache: nat -> Option<Option<BlockDataHint>>)
    returns (r: Result<(seq<DerivedAttributes>, seq<nat>)>, messages: seq<L1Message>)
    ensures r.Ok? ==>
              && FetchedFrom(provider, blocks, cursor, v2Start, messages) && |r.value.0| == |blocks|
              && (forall k :: 0 <= k < |blocks| ==> Derived(blocks, messages, bitmap, k, r.value.0[k]))
              && (forall k :: 0 <= k < |blocks| ==> Cached(cache, blocks[k].number, r.value.0[k].attributes.hint))
              && r.value.1 == Skipped(messages, bitmap, |messages|)
    ensures r.Ok? <==> (exists m :: FetchedFrom(provider, blocks, cursor, v2Start, m)) && Derives(blocks, cache)
    ensures r.Err? ==> !r.error.MissingL1Message?
  {
    var fetched := FetchMessages(provider, blocks, cursor, v2Start);
    if fetched.Err? {
      return Err(fetched.error), [];
    }
    messages := fetched.value;
    r := DeriveBlocks(blocks, messages, bitmap, cache);
  }

  // ---- Accounting ----

  lemma {:induction false} IncludedSplits(messages: seq<L1Message>, bitmap: seq<bool>, from: nat, mid: nat, end: nat)
    requires from <= mid <= end <= |messages|
    ensures Included(messages, bitmap, from, end) ==
            Included(messages, bitmap, from, mid) + Included(messages, bitmap, mid, end)
    decreases end
  {
    if mid < end {
      IncludedSplits(messages, bitmap, from, mid, end - 1);
    }
  }

  /** A message that is not skipped sits right after the included messages before it. */
  lemma IncludedAt(messages: seq<L1Message>, bitmap: seq<bool>, from: nat, end: nat, i: nat)
    requires from <= i < end <= |messages| && !IsSkipped(bitmap, i)
    ensures var before := |Included(messages, bitmap, from, i)|;
            before < |Included(messages, bitmap, from, end)| &&
            Included(messages, bitmap, from, end)[before] == messages[i].encoded
  {
    IncludedSplits(messages, bitmap, from, i + 1, end);
  }

  lemma {:induction false} SkippedGrows(messages: seq<L1Message>, bitmap: seq<bool>, m: nat, n: nat)
    requires m <= n <= |messages|
    ensures Skipped(messages, bitmap, m) <= Skipped(messages, bitmap, n)
    decreases n
  {
    if m < n {
      SkippedGrows(messages, bitmap, m, n - 1);
    }
  }

  /** A skipped message is recorded by its queue index, right after the skipped messages before it. */
  lemma SkippedAt(messages: seq<L1Message>, bitmap: seq<bool>, n: nat, i: nat)
    requires i < n <= |messages| && IsSkipped(bitmap, i)
    ensures var before := |Skipped(messages, bitmap, i)|;
            before < |Skipped(messages, bitmap, n)| && Skipped(messages, bitmap, n)[before] == messages[i].queueIndex
  {
    SkippedGrows(messages, bitmap, i + 1, n);
  }

  /** Every message is included or skipped, and not both. */
  lemma {:induction false} NothingLost(messages: seq<L1Message>, bitmap: seq<bool>, n: nat)
    requires n <= |messages|
    ensures |Included(messages, bitmap, 0, n)| + |Skipped(messages, bitmap, n)| == n
  {
    if n > 0 {
      NothingLost(messages, bitmap, n - 1);
    }
  }

  /** The block whose window holds message `i`; windows do not overlap. */
  function BlockOf(blocks: seq<BlockData>, i: nat, n: nat): (k: nat)
    requires n <= |blocks| && i < Offset(blocks, n)
    ensures k < n && Offset(blocks, k) <= i < Offset(blocks, k + 1)
  {
    if Offset(blocks, n - 1) <= i then n - 1 else BlockOf(blocks, i, n - 1)
  }

  lemma OneWindow(blocks: seq<BlockData>, i: nat, j: nat, k: nat)
    requires j < |blocks| && k < |blocks|
    requires Offset(blocks, j) <= i < Offset(blocks, j + 1) && Offset(blocks, k) <= i < Offset(blocks, k + 1)
    ensures j == k
  {
    if j < k {
      OffsetGrows(blocks, j + 1, k);
    } else if k < j {
      OffsetGrows(blocks, k + 1, j);
    }
  }

  lemma {:induction false} L1MessagesAppend(a: seq<Bytes>, b: seq<Bytes>)
    ensures L1Messages(a + b) == L1Messages(a) + L1Messages(b)
    decreases |a|
  {
    if a == [] {
      assert a + b == b;
    } else {
      assert (a + b)[1..] == a[1..] + b;
      L1MessagesAppend(a[1..], b);
    }
  }

  lemma {:induction false} L1MessagesOf(txs: seq<Bytes>)
    ensures (forall x :: x in txs ==> IsL1Message(x)) ==> L1Messages(txs) == txs
    ensures OnlyL2(txs) ==> L1Messages(txs) == []
    decreases |txs|
  {
    if txs != [] {
      L1MessagesOf(txs[1..]);
    }
  }

  /** Encoded messages start with the L1 message type byte. */
  ghost predicate Encoded(messages: seq<L1Message>) {
    forall i :: 0 <= i < |messages| ==> IsL1Message(messages[i].encoded)
  }

  lemma {:induction false} IncludedAreMessages(messages: seq<L1Message>, bitmap: seq<bool>, from: nat, end: nat)
    requires from <= end <= |messages| && Encoded(messages)
    ensures forall x :: x in Included(messages, bitmap, from, end) ==> IsL1Message(x)
    decreases end
  {
    if from < end {
      IncludedAreMessages(messages, bitmap, from, end - 1);
    }
  }

  /** The L1 messages found in a derived block are exactly the included messages of its window. */
  lemma DerivedMessages(blocks: seq<BlockData>, messages: seq<L1Message>, bitmap: seq<bool>, k: nat, d: DerivedAttributes)
    requires Encoded(messages) && Derived(blocks, messages, bitmap, k, d)
    ensures L1Messages(d.attributes.transactions.value) ==
            Included(messages, bitmap, Offset(blocks, k), Offset(blocks, k + 1))
  {
    var included := Included(messages, bitmap, Offset(blocks, k), Offset(blocks, k + 1));
    IncludedAreMessages(messages, bitmap, Offset(blocks, k), Offset(blocks, k + 1));
    assert d.attributes.transactions.value == included + blocks[k].transactions;
    L1MessagesAppend(included, blocks[k].transactions);
    L1MessagesOf(included);
    L1MessagesOf(blocks[k].transactions);
  }
}
