/**
 Answering a derivation request out of the database: the batch row under its index, the commitment
 behind that row, and the stored L1 messages from the commitment's cursor on.
 */
module Requests {
  import opened Primitives
  import opened BatchTables
  import opened Reconciliation
  import opened Derivation
  import Consolidation
  import MessageQueue
  import Pipeline

  /** What a batch commitment decodes to. */
  datatype Commitment = Commitment(blocks: seq<BlockData>, cursor: QueueCursor, bitmap: seq<bool>)

  /** What L1 fixes: the commitment behind each batch hash and the encoding of each L1 message. */
  datatype Env = Env(
    commitments: map<Hash, Commitment>,
    encoded: Hash -> Bytes,
    H: MessageQueue.HashFn,
    v2Start: nat)

  type Queue = map<nat, MessageQueue.Stored>

  // ---- Fetching stored messages ----

  function MessageAt(env: Env, queue: Queue, k: nat): L1Message
    requires k in queue
  {
    L1Message(k, env.encoded(queue[k].txHash))
  }

  /** The answer to a query for `n` messages from an index on. */
  ghost function Query(env: Env, queue: Queue, from: nat, n: nat): seq<L1Message> {
    var keys := MessageQueue.KeysFrom(queue.Keys, from, n);
    seq(|keys|, i requires 0 <= i < |keys| => MessageAt(env, queue, keys[i]))
  }

  predicate Carries(queue: Queue, k: nat, h: Hash) {
    k in queue && queue[k].queueHash == Some(h)
  }

  /** The messages a derivation of the commitment fetches: as many as it claims, from its cursor on. */
  ghost predicate Fetched(env: Env, queue: Queue, c: Commitment, messages: seq<L1Message>) {
    var total := Total(c.blocks);
    && |messages| == total
    && match c.cursor
       case InitialIndex(i) => messages == Query(env, queue, i, total)
       case AfterHash(h) =>
         if h == ZERO_HASH then messages == Query(env, queue, env.v2Start, total)
         else exists k, first :: Carries(queue, k, h) && [first] + messages == Query(env, queue, k, total + 1)
       case NoCursor => false
  }

  /** The queue index of the first message a commitment claims. */
  ghost predicate StartsAt(env: Env, queue: Queue, cursor: QueueCursor, k: nat) {
    match cursor
    case InitialIndex(i) => k == i
    case AfterHash(h) => if h == ZERO_HASH then k == env.v2Start else k > 0 && Carries(queue, k - 1, h)
    case NoCursor => false
  }

  predicate AllStored(queue: Queue, k: nat, total: nat) {
    forall i :: k <= i < k + total ==> i in queue
  }

  /** The message is the one stored under the index. */
  predicate IsStored(env: Env, queue: Queue, n: nat, m: L1Message) {
    n in queue && m == MessageAt(env, queue, n)
  }

  /** The messages are the stored ones from `k` on. */
  ghost predicate IsSlice(env: Env, queue: Queue, k: nat, messages: seq<L1Message>) {
    forall i :: 0 <= i < |messages| ==> IsStored(env, queue, k + i, messages[i])
  }

  lemma StoredIsBelow(queue: Queue, k: nat)
    requires MessageQueue.Dense(queue)
    ensures k in queue <==> k < |queue|
  {
    assert k in queue.Keys <==> k in MessageQueue.Indices(|queue|);
  }

  lemma QueryIsSlice(env: Env, queue: Queue, from: nat, n: nat)
    requires MessageQueue.Dense(queue)
    ensures var q := Query(env, queue, from, n);
            && IsSlice(env, queue, from, q)
            && |q| == (if |queue| <= from then 0 else Min(n, |queue| - from))
  {
    MessageQueue.DenseKeys(queue, from, n);
  }

  /** On a gap-free table everything in the range is stored exactly when its end is. */
  lemma StoredRange(queue: Queue, k: nat, total: nat)
    requires MessageQueue.Dense(queue)
    ensures AllStored(queue, k, total) <==> total == 0 || k + total <= |queue|
  {
    forall i: nat
      ensures i in queue <==> i < |queue|
    {
      StoredIsBelow(queue, i);
    }
    if total > 0 && AllStored(queue, k, total) {
      assert k + total - 1 in queue;
    }
  }

  lemma SliceIsStored(env: Env, queue: Queue, k: nat, messages: seq<L1Message>)
    requires IsSlice(env, queue, k, messages)
    ensures AllStored(queue, k, |messages|)
  {
    forall i | k <= i < k + |messages|
      ensures i in queue
    {
      var j := i - k;
      assert IsStored(env, queue, k + j, messages[j]);
    }
  }

  lemma SliceTail(env: Env, queue: Queue, j: nat, first: L1Message, messages: seq<L1Message>)
    requires IsSlice(env, queue, j, [first] + messages)
    ensures IsSlice(env, queue, j + 1, messages)
  {
    forall i | 0 <= i < |messages|
      ensures IsStored(env, queue, j + 1 + i, messages[i])
    {
      assert ([first] + messages)[i + 1] == messages[i];
    }
  }

  /** What is fetched from a gap-free table are the stored messages from the cursor on. */
  lemma FetchedIsSlice(env: Env, queue: Queue, c: Commitment, messages: seq<L1Message>) returns (k: nat)
    requires MessageQueue.Dense(queue) && Fetched(env, queue, c, messages)
    ensures StartsAt(env, queue, c.cursor, k) && IsSlice(env, queue, k, messages)
    ensures AllStored(queue, k, Total(c.blocks))
  {
    var total := Total(c.blocks);
    match c.cursor {
      case InitialIndex(i) =>
        k := i;
        QueryIsSlice(env, queue, k, total);
      case AfterHash(h) =>
        if h == ZERO_HASH {
          k := env.v2Start;
          QueryIsSlice(env, queue, k, total);
        } else {
          var j: nat, first :| Carries(queue, j, h) && [first] + messages == Query(env, queue, j, total + 1);
          k := j + 1;
          QueryIsSlice(env, queue, j, total + 1);
          SliceTail(env, queue, j, first, messages);
        }
    }
    SliceIsStored(env, queue, k, messages);
  }

  /** Stored messages from a start index on are fetched. */
  lemma StoredIsFetched(env: Env, queue: Queue, c: Commitment, k: nat) returns (messages: seq<L1Message>)
    requires MessageQueue.Dense(queue) && StartsAt(env, queue, c.cursor, k) && AllStored(queue, k, Total(c.blocks))
    ensures Fetched(env, queue, c, messages)
  {
    var total := Total(c.blocks);
    StoredRange(queue, k, total);
    if c.cursor.AfterHash? && c.cursor.previous != ZERO_HASH {
      StoredIsBelow(queue, k - 1);
      QueryIsSlice(env, queue, k - 1, total + 1);
      var answer := Query(env, queue, k - 1, total + 1);
      messages := answer[1..];
      assert [answer[0]] + messages == answer;
    } else {
      QueryIsSlice(env, queue, k, total);
      messages := Query(env, queue, k, total);
    }
  }

  // ---- What a request can be answered with ----

  /** The commitment behind the hash decodes, holds only L2 transactions and has its messages stored. */
  ghost predicate Decodable(env: Env, queue: Queue, h: Hash) {
    && h in env.commitments
    && (forall i :: 0 <= i < |env.commitments[h].blocks| ==> OnlyL2(env.commitments[h].blocks[i].transactions))
    && exists k :: StartsAt(env, queue, env.commitments[h].cursor, k) &&
                   AllStored(queue, k, Total(env.commitments[h].blocks))
  }

  ghost predicate Derivable(env: Env, rows: map<Hash, Row>, queue: Queue, index: nat) {
    exists h :: Live(rows, h, index) && Decodable(env, queue, h)
  }

  /** A derived batch, the messages fetched for it, and the tables it was looked up in. */
  datatype Result = Result(batch: Batch, messages: seq<L1Message>, rows: map<Hash, Row>, queue: Queue)

  /** The batch is what derivation makes of the commitment and of these messages. */
  ghost predicate DerivedFrom(batch: Batch, c: Commitment, messages: seq<L1Message>) {
    && |batch.attrs| == |c.blocks| && Total(c.blocks) == |messages|
    && (forall k :: 0 <= k < |c.blocks| ==> Derived(c.blocks, messages, c.bitmap, k, batch.attrs[k]))
    && batch.skipped == Skipped(messages, c.bitmap, |messages|)
  }

  /**
   The request is looked up by its index alone; the batch takes its hash from the row found and is
   derived from the commitment behind that hash and the messages stored from its cursor on.
   */
  ghost predicate Resolves(env: Env, rows: map<Hash, Row>, queue: Queue, request: Pipeline.Request, r: Result) {
    var h := r.batch.info.hash;
    && r.rows == rows && r.queue == queue
    && r.batch.info.index == request.info.index && r.batch.target == request.target
    && Live(rows, h, request.info.index) && h in env.commitments
    && Fetched(env, queue, env.commitments[h], r.messages) && DerivedFrom(r.batch, env.commitments[h], r.messages)
  }

  /** Whatever answers a request shows that it can be answered. */
  lemma ResolvedIsDerivable(env: Env, rows: map<Hash, Row>, queue: Queue, request: Pipeline.Request, r: Result)
    requires MessageQueue.Dense(queue) && Resolves(env, rows, queue, request, r)
    ensures Derivable(env, rows, queue, request.info.index)
  {
    var h := r.batch.info.hash;
    var c := env.commitments[h];
    var k := FetchedIsSlice(env, queue, c, r.messages);
    forall i | 0 <= i < |c.blocks|
      ensures OnlyL2(c.blocks[i].transactions)
    {
      assert Derived(c.blocks, r.messages, c.bitmap, i, r.batch.attrs[i]);
    }
    assert Decodable(env, queue, h);
  }

  /** The attributes of block `k`, with no cached hint. */
  ghost function AttributeOf(c: Commitment, messages: seq<L1Message>, k: nat): (d: Consolidation.DerivedAttributes)
    requires k < |c.blocks| && Total(c.blocks) == |messages| && OnlyL2(c.blocks[k].transactions)
    ensures Derived(c.blocks, messages, c.bitmap, k, d)
  {
    OffsetGrows(c.blocks, k, k + 1);
    OffsetGrows(c.blocks, k + 1, |c.blocks|);
    AttributesFor(c.blocks[k], Included(messages, c.bitmap, Offset(c.blocks, k), Offset(c.blocks, k + 1)), NO_HINT)
  }

  ghost function AttributesOf(c: Commitment, messages: seq<L1Message>): seq<Consolidation.DerivedAttributes>
    requires Total(c.blocks) == |messages|
    requires forall i :: 0 <= i < |c.blocks| ==> OnlyL2(c.blocks[i].transactions)
  {
    seq(|c.blocks|, k requires 0 <= k < |c.blocks| => AttributeOf(c, messages, k))
  }

  /** Whatever can be answered is answered by some batch. */
  lemma DerivableResolves(env: Env, rows: map<Hash, Row>, queue: Queue, request: Pipeline.Request) returns (r: Result)
    requires MessageQueue.Dense(queue) && Derivable(env, rows, queue, request.info.index)
    ensures Resolves(env, rows, queue, request, r)
  {
    var h :| Live(rows, h, request.info.index) && Decodable(env, queue, h);
    var c := env.commitments[h];
    var k: nat :| StartsAt(env, queue, c.cursor, k) && AllStored(queue, k, Total(c.blocks));
    var messages := StoredIsFetched(env, queue, c, k);
    assert forall i :: 0 <= i < |c.blocks| ==> AttributesOf(c, messages)[i] == AttributeOf(c, messages, i);
    r := Result(Batch(BatchInfo(request.info.index, h), AttributesOf(c, messages),
                      Skipped(messages, c.bitmap, |messages|), request.target),
                messages, rows, queue);
  }

  // ---- One derivation ----

  /** The decoder and the provider answer out of L1 and the tables, or fail. */
  ghost predicate Serves(env: Env, store: MessageQueue.MessageStore, decode: Hash -> Option<Commitment>, provider: Provider)
    reads store
  {
    var queue := store.rows;
    && store.v2Start == env.v2Start
    && (forall h :: decode(h).Some? ==> h in env.commitments && decode(h).value == env.commitments[h])
    && (forall i, n :: provider.fromIndex(i, n).Some? ==> provider.fromIndex(i, n).value == Query(env, queue, i, n))
    && (forall h, n :: provider.fromHash(h, n).Some? ==>
          exists k :: Carries(queue, k, h) && provider.fromHash(h, n).value == Query(env, queue, k, n))
  }

  lemma ServedIsFetched(env: Env, store: MessageQueue.MessageStore, decode: Hash -> Option<Commitment>, provider: Provider,
                        c: Commitment, messages: seq<L1Message>)
    requires Serves(env, store, decode, provider) && FetchedFrom(provider, c.blocks, c.cursor, env.v2Start, messages)
    ensures Fetched(env, store.rows, c, messages)
  {
    var queue := store.rows;
    if c.cursor.AfterHash? && c.cursor.previous != ZERO_HASH {
      var h, n := c.cursor.previous, Total(c.blocks) + 1;
      var first :| provider.fromHash(h, n) == Some([first] + messages);
      var k :| Carries(queue, k, h) && provider.fromHash(h, n).value == Query(env, queue, k, n);
      assert [first] + messages == Query(env, queue, k, n);
    }
  }

  /** The provider has the messages the commitment claims, and its blocks can be derived. */
  ghost predicate Answers(provider: Provider, c: Commitment, v2Start: nat,
                          cache: nat -> Option<Option<Consolidation.BlockDataHint>>)
  {
    (exists m :: FetchedFrom(provider, c.blocks, c.cursor, v2Start, m)) && Derives(c.blocks, cache)
  }

  /**
   The row under the index, its commitment, its messages, its blocks; any of the reads may fail, and
   only then does the derivation.
   */
  method DeriveRequest(table: BatchTable, store: MessageQueue.MessageStore, request: Pipeline.Request,
                       decode: Hash -> Option<Commitment>, provider: Provider,
                       cache: nat -> Option<Option<Consolidation.BlockDataHint>>, ghost env: Env)
    returns (fate: Pipeline.Fate<Result>)
    ensures !fate.Running?
    ensures fate.Ready? ==>
              exists h :: Live(table.rows, h, request.info.index) && decode(h).Some? &&
                          Answers(provider, decode(h).value, store.v2Start, cache)
    ensures fate.Failing? ==>
              || (forall h :: !Live(table.rows, h, request.info.index))
              || exists h :: Live(table.rows, h, request.info.index) &&
                             (decode(h).Some? ==> !Answers(provider, decode(h).value, store.v2Start, cache))
    ensures fate.Ready? ==>
              forall k :: 0 <= k < |fate.result.batch.attrs| ==>
                Cached(cache, fate.result.batch.attrs[k].number, fate.result.batch.attrs[k].attributes.hint)
    ensures Serves(env, store, decode, provider) && fate.Ready? ==>
              Resolves(env, table.rows, store.rows, request, fate.result)
    ensures Serves(env, store, decode, provider) && MessageQueue.Dense(store.rows) ==>
              (!Derivable(env, table.rows, store.rows, request.info.index) ==> fate.Failing?)
  {
    var stored := table.GetByIndex(request.info.index);
    if stored.None? {
      return Pipeline.Failing;
    }
    var commitment := decode(stored.value);
    if commitment.None? {
      return Pipeline.Failing;
    }
    var c := commitment.value;
    var derived, messages := Derive(provider, c.blocks, c.cursor, c.bitmap, store.v2Start, cache);
    if derived.Err? {
      return Pipeline.Failing;
    }
    var batch := Batch(BatchInfo(request.info.index, stored.value), derived.value.0, derived.value.1, request.target);
    var result := Result(batch, messages, table.rows, store.rows);
    if Serves(env, store, decode, provider) {
      ServedIsFetched(env, store, decode, provider, c, messages);
      if MessageQueue.Dense(store.rows) {
        ResolvedIsDerivable(env, table.rows, store.rows, request, result);
      }
    }
    return Pipeline.Ready(result);
  }
}
