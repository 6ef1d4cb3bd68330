/**
 The stored L1 message queue: messages arrive by queue index, carry a rolling hash from the V2
 queue start on, and are removed by L1 block when L1 reorgs.
 */
module MessageQueue {
  import opened Primitives

  /** The 64-byte keccak of a rolling hash and a transaction hash; any function will do. */
  type HashFn = (Hash, Hash) -> Hash

  datatype Message = Message(queueIndex: nat, txHash: Hash)

  datatype Stored = Stored(txHash: Hash, l1Block: nat, queueHash: Option<Hash>)

  datatype QueueError = QueueGap(index: nat) | MessageNotFound(index: nat)

  // ---- The queue as a sequence ----

  /** The rolling hash of a run of transaction hashes, from zero. */
  function Fold(H: HashFn, txs: seq<Hash>): Hash {
    if txs == [] then ZERO_HASH else H(Fold(H, txs[..|txs| - 1]), txs[|txs| - 1])
  }

  function TxHashes(q: seq<Stored>): seq<Hash> {
    seq(|q|, i requires 0 <= i < |q| => q[i].txHash)
  }

  /** The queue hash the message at index `i` must carry. */
  function QueueHashAt(H: HashFn, q: seq<Stored>, v2: nat, i: nat): Option<Hash>
    requires i < |q|
  {
    if i < v2 then None else Some(Fold(H, TxHashes(q)[v2..i + 1]))
  }

  ghost predicate Hashed(H: HashFn, q: seq<Stored>, v2: nat) {
    forall i :: 0 <= i < |q| ==> q[i].queueHash == QueueHashAt(H, q, v2, i)
  }

  /** Messages further down the queue come from the same or later L1 blocks. */
  ghost predicate Chronological(q: seq<Stored>) {
    forall i, j :: 0 <= i < j < |q| ==> q[i].l1Block <= q[j].l1Block
  }

  /** What the arrival of a message computes for its hash. */
  function NextHash(H: HashFn, q: seq<Stored>, v2: nat, txHash: Hash): Option<Hash> {
    if |q| < v2 then None
    else if |q| == v2 then Some(H(ZERO_HASH, txHash))
    else Some(H(if q[|q| - 1].queueHash.Some? then q[|q| - 1].queueHash.value else ZERO_HASH, txHash))
  }

  function Deliver(H: HashFn, q: seq<Stored>, v2: nat, m: Message, l1Block: nat): seq<Stored> {
    if m.queueIndex == |q| then q + [Stored(m.txHash, l1Block, NextHash(H, q, v2, m.txHash))] else q
  }

  /** The longest prefix from L1 blocks at or below `ancestor`. */
  function Truncate(q: seq<Stored>, ancestor: nat): (r: seq<Stored>)
    ensures r <= q
  {
    if q == [] || q[0].l1Block > ancestor then []
    else [q[0]] + Truncate(q[1..], ancestor)
  }

  // ---- The stored table ----

  /** The indices below `n`. */
  function Indices(n: nat): (r: set<nat>)
    ensures |r| == n && forall i: nat :: i in r <==> i < n
  {
    if n == 0 then {} else Indices(n - 1) + {n - 1}
  }

  /** The rows have queue indices `0..k`, and no others. */
  predicate Dense(rows: map<nat, Stored>) {
    rows.Keys == Indices(|rows|)
  }

  function AsSeq(rows: map<nat, Stored>): seq<Stored>
    requires Dense(rows)
  {
    seq(|rows|, i requires 0 <= i < |rows| => rows[i])
  }

  lemma AppendRow(rows: map<nat, Stored>, s: Stored)
    requires Dense(rows)
    ensures Dense(rows[|rows| := s]) && AsSeq(rows[|rows| := s]) == AsSeq(rows) + [s]
  {
    var next := rows[|rows| := s];
    assert next.Keys == Indices(|rows| + 1);
  }

  /** `r` is the least key at or above `from`, as a query by index with limit one returns it. */
  ghost predicate LeastFrom(keys: set<nat>, from: nat, r: Option<nat>) {
    match r
    case None => forall k :: k in keys ==> k < from
    case Some(m) => m in keys && from <= m && forall k :: k in keys && from <= k ==> m <= k
  }

  lemma {:induction false} LeastExists(keys: set<nat>, from: nat)
    ensures exists r :: LeastFrom(keys, from, r)
    decreases |keys|
  {
    if keys == {} {
      assert LeastFrom(keys, from, None);
    } else {
      var k :| k in keys;
      LeastExists(keys - {k}, from);
      var r :| LeastFrom(keys - {k}, from, r);
      assert keys == (keys - {k}) + {k};
      assert LeastFrom(keys, from, if from <= k && (r.None? || k < r.value) then Some(k) else r);
    }
  }

  lemma LeastIsUnique(keys: set<nat>, from: nat, r: Option<nat>, r': Option<nat>)
    requires LeastFrom(keys, from, r) && LeastFrom(keys, from, r')
    ensures r == r'
  {
  }

  /** The row a query for one message from an index on returns. */
  ghost function FirstAt(keys: set<nat>, from: nat): (r: Option<nat>)
    ensures LeastFrom(keys, from, r)
  {
    LeastExists(keys, from);
    var r :| LeastFrom(keys, from, r);
    r
  }

  /** The queue indices a query for `n` messages from an index on returns, in order. */
  ghost function KeysFrom(keys: set<nat>, from: nat, n: nat): (r: seq<nat>)
    ensures |r| <= n && forall i :: 0 <= i < |r| ==> r[i] in keys && from <= r[i]
    decreases n
  {
    if n == 0 then []
    else match FirstAt(keys, from)
      case None => []
      case Some(k) => [k] + KeysFrom(keys, k + 1, n - 1)
  }

  // ---- What a message does to the table ----

  /** The queue hash of an arriving message, read off the first row at or above its predecessor. */
  ghost function HashFor(H: HashFn, rows: map<nat, Stored>, v2: nat, m: Message): Option<Hash> {
    if m.queueIndex < v2 then None
    else if m.queueIndex == v2 then Some(H(ZERO_HASH, m.txHash))
    else match FirstAt(rows.Keys, m.queueIndex - 1)
      case None => None
      case Some(k) => Some(H(if rows[k].queueHash.Some? then rows[k].queueHash.value else ZERO_HASH, m.txHash))
  }

  /** A message is refused when no row is stored at or above its predecessor. */
  ghost function ErrorFor(rows: map<nat, Stored>, v2: nat, m: Message): Option<QueueError> {
    if m.queueIndex == 0 || FirstAt(rows.Keys, m.queueIndex - 1).Some? then None
    else if v2 < m.queueIndex then Some(MessageNotFound(m.queueIndex - 1))
    else Some(QueueGap(m.queueIndex))
  }

  ghost function StoreMessage(H: HashFn, rows: map<nat, Stored>, v2: nat, m: Message, l1Block: nat): map<nat, Stored> {
    if m.queueIndex in rows || ErrorFor(rows, v2, m).Some? then rows
    else rows[m.queueIndex := Stored(m.txHash, l1Block, HashFor(H, rows, v2, m))]
  }

  class MessageStore {
    var rows: map<nat, Stored>
    const v2Start: nat

    constructor (v2Start: nat)
      ensures rows == map[] && this.v2Start == v2Start
    {
      rows := map[];
      this.v2Start := v2Start;
    }

    method FirstFrom(from: nat) returns (r: Option<nat>)
      ensures LeastFrom(rows.Keys, from, r) && r == FirstAt(rows.Keys, from)
    {
      r := None;
      var left := rows.Keys;
      while left != {}
        invariant left <= rows.Keys
        invariant LeastFrom(rows.Keys - left, from, r)
        decreases left
      {
        var k :| k in left;
        assert rows.Keys - (left - {k}) == (rows.Keys - left) + {k};
        left := left - {k};
        if from <= k && (r.None? || k < r.value) {
          r := Some(k);
        }
      }
      assert rows.Keys - left == rows.Keys;
      LeastIsUnique(rows.Keys, from, r, FirstAt(rows.Keys, from));
    }

    /** A query for `n` messages, one row after the other. */
    method GetN(from: nat, n: nat) returns (keys: seq<nat>)
      ensures keys == KeysFrom(rows.Keys, from, n)
    {
      keys := [];
      var next, left := from, n;
      while left > 0
        invariant 0 <= next && 0 <= left <= n
        invariant keys + KeysFrom(rows.Keys, next, left) == KeysFrom(rows.Keys, from, n)
      {
        var k := FirstFrom(next);
        if k.None? {
          return;
        }
        assert keys + ([k.value] + KeysFrom(rows.Keys, k.value + 1, left - 1)) ==
               (keys + [k.value]) + KeysFrom(rows.Keys, k.value + 1, left - 1);
        keys, next, left := keys + [k.value], k.value + 1, left - 1;
      }
    }

    /** On a gap-free table the hash continues the predecessor's, for a stored index and the next one. */
    method ComputeQueueHash(H: HashFn, m: Message) returns (hash: Option<Hash>, error: Option<QueueError>)
      ensures error == if v2Start < m.queueIndex then ErrorFor(rows, v2Start, m) else None
      ensures error.None? ==> hash == HashFor(H, rows, v2Start, m)
      ensures Dense(rows) && m.queueIndex <= |rows| ==>
                error.None? && hash == NextHash(H, AsSeq(rows)[..m.queueIndex], v2Start, m.txHash)
    {
      if Dense(rows) && m.queueIndex <= |rows| {
        DenseHash(H, rows, v2Start, m);
      }
      error := None;
      if m.queueIndex == v2Start {
        hash := Some(H(ZERO_HASH, m.txHash));
      } else if m.queueIndex > v2Start {
        var previous := FirstFrom(m.queueIndex - 1);
        if previous.None? {
          return None, Some(MessageNotFound(m.queueIndex - 1));
        }
        var rolling := rows[previous.value].queueHash;
        hash := Some(H(if rolling.Some? then rolling.value else ZERO_HASH, m.txHash));
      } else {
        hash := None;
      }
    }

    /** Stores the message unless its index is taken; refuses it when its predecessor is missing. */
    method HandleL1Message(H: HashFn, m: Message, l1Block: nat) returns (error: Option<QueueError>)
      modifies this
      ensures rows == StoreMessage(H, old(rows), v2Start, m, l1Block) && error == ErrorFor(old(rows), v2Start, m)
      ensures error.None? <==> m.queueIndex == 0 || exists k :: k in old(rows) && m.queueIndex - 1 <= k
      ensures error.Some? ==>
                error.value == if v2Start < m.queueIndex then MessageNotFound(m.queueIndex - 1) else QueueGap(m.queueIndex)
      ensures error.None? && m.queueIndex !in old(rows) ==>
                && m.queueIndex in rows && rows[m.queueIndex].txHash == m.txHash && rows[m.queueIndex].l1Block == l1Block
                && rows == old(rows)[m.queueIndex := rows[m.queueIndex]]
                && (rows[m.queueIndex].queueHash.Some? <==> v2Start <= m.queueIndex)
      ensures error.Some? || m.queueIndex in old(rows) ==> rows == old(rows)
      ensures old(Dense(rows)) ==>
                && Dense(rows) && AsSeq(rows) == Deliver(H, old(AsSeq(rows)), v2Start, m, l1Block)
                && (error.None? <==> m.queueIndex <= old(|rows|))
    {
      if Dense(rows) {
        DenseStore(H, rows, v2Start, m, l1Block);
      }
      var hash;
      hash, error := ComputeQueueHash(H, m);
      if error.Some? {
        return;
      }
      if m.queueIndex > 0 {
        var previous := FirstFrom(m.queueIndex - 1);
        if previous.None? {
          return Some(QueueGap(m.queueIndex));
        }
      }
      if m.queueIndex !in rows {
        rows := rows[m.queueIndex := Stored(m.txHash, l1Block, hash)];
      }
    }

    /** Removes the messages of L1 blocks above the ancestor. */
    method DeleteAbove(ancestor: nat)
      modifies this
      ensures rows == KeptRows(old(rows), ancestor)
      ensures forall i :: i in rows <==> i in old(rows) && old(rows)[i].l1Block <= ancestor
      ensures forall i :: i in rows ==> rows[i] == old(rows)[i]
      ensures old(Dense(rows)) && Chronological(old(AsSeq(rows))) ==>
                Dense(rows) && AsSeq(rows) == Truncate(old(AsSeq(rows)), ancestor)
    {
      if Dense(rows) && Chronological(AsSeq(rows)) {
        KeptIsPrefix(rows, ancestor);
      }
      rows := map i | i in rows && rows[i].l1Block <= ancestor :: rows[i];
    }
  }

  lemma DenseFirst(rows: map<nat, Stored>, from: nat)
    requires Dense(rows)
    ensures FirstAt(rows.Keys, from) == if from < |rows| then Some(from) else None
  {
    assert from in rows.Keys <==> from in Indices(|rows|);
    assert forall k :: k in rows.Keys ==> k in Indices(|rows|);
  }

  /** On a gap-free table a query returns consecutive indices, as many as there are. */
  lemma {:induction false} DenseKeys(rows: map<nat, Stored>, from: nat, n: nat)
    requires Dense(rows)
    ensures var keys := KeysFrom(rows.Keys, from, n);
            && |keys| == (if |rows| <= from then 0 else Min(n, |rows| - from))
            && forall i :: 0 <= i < |keys| ==> keys[i] == from + i
    decreases n
  {
    if n > 0 {
      DenseFirst(rows, from);
      DenseKeys(rows, from + 1, n - 1);
    }
  }

  lemma DenseHash(H: HashFn, rows: map<nat, Stored>, v2: nat, m: Message)
    requires Dense(rows) && m.queueIndex <= |rows|
    ensures ErrorFor(rows, v2, m).None?
    ensures HashFor(H, rows, v2, m) == NextHash(H, AsSeq(rows)[..m.queueIndex], v2, m.txHash)
  {
    if m.queueIndex > 0 {
      DenseFirst(rows, m.queueIndex - 1);
    }
  }

  lemma DenseError(rows: map<nat, Stored>, v2: nat, m: Message)
    requires Dense(rows)
    ensures ErrorFor(rows, v2, m).None? <==> m.queueIndex <= |rows|
    ensures m.queueIndex in rows <==> m.queueIndex < |rows|
  {
    assert m.queueIndex in rows.Keys <==> m.queueIndex in Indices(|rows|);
    if m.queueIndex > 0 {
      DenseFirst(rows, m.queueIndex - 1);
    }
  }

  lemma DenseStore(H: HashFn, rows: map<nat, Stored>, v2: nat, m: Message, l1Block: nat)
    requires Dense(rows)
    ensures var after := StoreMessage(H, rows, v2, m, l1Block);
            Dense(after) && AsSeq(after) == Deliver(H, AsSeq(rows), v2, m, l1Block)
    ensures ErrorFor(rows, v2, m).None? <==> m.queueIndex <= |rows|
  {
    DenseError(rows, v2, m);
    if m.queueIndex == |rows| {
      DenseHash(H, rows, v2, m);
      assert AsSeq(rows)[..|rows|] == AsSeq(rows);
      AppendRow(rows, Stored(m.txHash, l1Block, HashFor(H, rows, v2, m)));
    }
  }

  function KeptRows(rows: map<nat, Stored>, ancestor: nat): map<nat, Stored> {
    map i | i in rows && rows[i].l1Block <= ancestor :: rows[i]
  }

  lemma KeptIsPrefix(rows: map<nat, Stored>, ancestor: nat)
    requires Dense(rows) && Chronological(AsSeq(rows))
    ensures Dense(KeptRows(rows, ancestor))
    ensures AsSeq(KeptRows(rows, ancestor)) == Truncate(AsSeq(rows), ancestor)
  {
    var q, kept := AsSeq(rows), KeptRows(rows, ancestor);
    TruncateAt(q, ancestor);
    KeptByIndex(rows, ancestor);
    DenseUpTo(kept, |Truncate(q, ancestor)|);
  }

  lemma DenseUpTo(rows: map<nat, Stored>, n: nat)
    requires forall i: nat :: i in rows <==> i < n
    ensures Dense(rows) && |rows| == n
  {
    assert rows.Keys == Indices(n);
  }

  /** The kept rows by index. */
  lemma KeptByIndex(rows: map<nat, Stored>, ancestor: nat)
    requires Dense(rows)
    ensures forall i: nat :: i in KeptRows(rows, ancestor) <==> i < |rows| && AsSeq(rows)[i].l1Block <= ancestor
  {
    forall i: nat
      ensures i in KeptRows(rows, ancestor) <==> i < |rows| && AsSeq(rows)[i].l1Block <= ancestor
    {
      assert i in rows.Keys <==> i in Indices(|rows|);
    }
  }

  lemma {:induction false} TruncateAt(q: seq<Stored>, ancestor: nat)
    requires Chronological(q)
    ensures forall i :: 0 <= i < |q| ==> (q[i].l1Block <= ancestor <==> i < |Truncate(q, ancestor)|)
    decreases |q|
  {
    if q != [] {
      assert forall i, j :: 0 <= i < j < |q[1..]| ==> q[1..][i].l1Block == q[i + 1].l1Block && q[1..][j].l1Block == q[j + 1].l1Block;
      TruncateAt(q[1..], ancestor);
      assert forall i :: 0 < i < |q| ==> q[i] == q[1..][i - 1];
    }
  }

  // ---- Whole runs ----

  datatype Event = Arrived(message: Message, l1Block: nat) | UnwoundTo(ancestor: nat)

  /** A new message comes from no earlier L1 block than its predecessor. */
  ghost predicate InOrder(rows: map<nat, Stored>, e: Event) {
    e.Arrived? && e.message.queueIndex > 0 && e.message.queueIndex - 1 in rows && e.message.queueIndex !in rows ==>
      rows[e.message.queueIndex - 1].l1Block <= e.l1Block
  }

  ghost function After(H: HashFn, rows: map<nat, Stored>, v2: nat, e: Event): map<nat, Stored> {
    match e
    case Arrived(m, l1Block) => StoreMessage(H, rows, v2, m, l1Block)
    case UnwoundTo(ancestor) => KeptRows(rows, ancestor)
  }

  ghost predicate InOrderRun(H: HashFn, rows: map<nat, Stored>, v2: nat, events: seq<Event>)
    decreases |events|
  {
    events == [] || (InOrder(rows, events[0]) && InOrderRun(H, After(H, rows, v2, events[0]), v2, events[1..]))
  }

  ghost function AfterAll(H: HashFn, rows: map<nat, Stored>, v2: nat, events: seq<Event>): map<nat, Stored>
    decreases |events|
  {
    if events == [] then rows else AfterAll(H, After(H, rows, v2, events[0]), v2, events[1..])
  }

  /** The hash an index must carry depends only on the queue up to it. */
  lemma HashDependsOnPrefix(H: HashFn, p: seq<Stored>, q: seq<Stored>, v2: nat, i: nat)
    requires p <= q && i < |p|
    ensures QueueHashAt(H, p, v2, i) == QueueHashAt(H, q, v2, i)
  {
    if v2 <= i {
      assert TxHashes(p)[v2..i + 1] == TxHashes(q)[v2..i + 1];
    }
  }

  lemma PrefixKeepsHashes(H: HashFn, q: seq<Stored>, v2: nat, p: seq<Stored>)
    requires Hashed(H, q, v2) && p <= q
    ensures Hashed(H, p, v2)
  {
    forall i | 0 <= i < |p|
      ensures p[i].queueHash == QueueHashAt(H, p, v2, i)
    {
      HashDependsOnPrefix(H, p, q, v2, i);
    }
  }

  lemma FoldSnoc(H: HashFn, txs: seq<Hash>, tx: Hash)
    ensures Fold(H, txs + [tx]) == H(Fold(H, txs), tx)
  {
    assert (txs + [tx])[..|txs|] == txs;
  }

  /** The hash computed on arrival is the one the new last index must carry. */
  lemma NextHashIsFold(H: HashFn, q: seq<Stored>, v2: nat, s: Stored)
    requires Hashed(H, q, v2) && s.queueHash == NextHash(H, q, v2, s.txHash)
    ensures s.queueHash == QueueHashAt(H, q + [s], v2, |q|)
  {
    if v2 <= |q| {
      var earlier := TxHashes(q)[v2..|q|];
      assert TxHashes(q + [s])[v2..|q| + 1] == earlier + [s.txHash];
      FoldSnoc(H, earlier, s.txHash);
      if v2 < |q| {
        assert q[|q| - 1].queueHash == QueueHashAt(H, q, v2, |q| - 1);
      } else {
        assert earlier == [];
      }
    }
  }

  lemma DeliverKeepsHashes(H: HashFn, q: seq<Stored>, v2: nat, m: Message, l1Block: nat)
    requires Hashed(H, q, v2)
    ensures Hashed(H, Deliver(H, q, v2, m, l1Block), v2)
  {
    if m.queueIndex == |q| {
      var s := Stored(m.txHash, l1Block, NextHash(H, q, v2, m.txHash));
      NextHashIsFold(H, q, v2, s);
      forall i | 0 <= i < |q|
        ensures q[i].queueHash == QueueHashAt(H, q + [s], v2, i)
      {
        HashDependsOnPrefix(H, q, q + [s], v2, i);
      }
    }
  }

  /** The table is gap-free from index zero, in L1 order, and every row carries its hash. */
  ghost predicate Sound(H: HashFn, rows: map<nat, Stored>, v2: nat) {
    Dense(rows) && Chronological(AsSeq(rows)) && Hashed(H, AsSeq(rows), v2)
  }

  lemma EmptyIsSound(H: HashFn, v2: nat)
    ensures Sound(H, map[], v2)
  {
    DenseUpTo(map[], 0);
  }

  lemma StepIsSound(H: HashFn, rows: map<nat, Stored>, v2: nat, e: Event)
    requires Sound(H, rows, v2) && InOrder(rows, e)
    ensures Sound(H, After(H, rows, v2, e), v2)
  {
    var q := AsSeq(rows);
    match e {
      case Arrived(m, l1Block) =>
        DenseStore(H, rows, v2, m, l1Block);
        DeliverKeepsHashes(H, q, v2, m, l1Block);
        if m.queueIndex == |rows| && m.queueIndex > 0 {
          assert m.queueIndex - 1 in Indices(|rows|) && m.queueIndex !in Indices(|rows|);
          assert q[|q| - 1].l1Block <= l1Block;
        }
      case UnwoundTo(ancestor) =>
        KeptIsPrefix(rows, ancestor);
        PrefixKeepsHashes(H, q, v2, Truncate(q, ancestor));
    }
  }

  /**
   The queue hash is a fold: from an empty table, over any run of arrivals (new, repeated or out of
   reach) and unwinds, the stored indices are exactly `0..k`, the message at each index at or above
   the V2 start carries the left fold of the hash function over the transaction hashes from the V2
   start, and earlier ones carry none.
   */
  lemma {:induction false} QueueHashIsFold(H: HashFn, rows: map<nat, Stored>, v2: nat, events: seq<Event>)
    requires Sound(H, rows, v2) && InOrderRun(H, rows, v2, events)
    ensures Sound(H, AfterAll(H, rows, v2, events), v2)
    decreases |events|
  {
    if events != [] {
      StepIsSound(H, rows, v2, events[0]);
      QueueHashIsFold(H, After(H, rows, v2, events[0]), v2, events[1..]);
    }
  }

  /** Deleting by L1 block keeps the queue gap-free exactly when what it deletes is a suffix. */
  lemma GapFreeExactlyWhenSuffix(rows: map<nat, Stored>, ancestor: nat)
    requires Dense(rows)
    ensures Dense(KeptRows(rows, ancestor)) <==> DeletesSuffix(AsSeq(rows), ancestor)
  {
    if DeletesSuffix(AsSeq(rows), ancestor) {
      SuffixLeavesDense(rows, ancestor);
    }
    if Dense(KeptRows(rows, ancestor)) {
      DenseDeletesSuffix(rows, ancestor);
    }
  }

  lemma SuffixLeavesDense(rows: map<nat, Stored>, ancestor: nat)
    requires Dense(rows) && DeletesSuffix(AsSeq(rows), ancestor)
    ensures Dense(KeptRows(rows, ancestor))
  {
    TruncateStops(AsSeq(rows), ancestor);
    KeptByIndex(rows, ancestor);
    DenseUpTo(KeptRows(rows, ancestor), |Truncate(AsSeq(rows), ancestor)|);
  }

  lemma DenseDeletesSuffix(rows: map<nat, Stored>, ancestor: nat)
    requires Dense(rows) && Dense(KeptRows(rows, ancestor))
    ensures DeletesSuffix(AsSeq(rows), ancestor)
  {
    var q, kept := AsSeq(rows), KeptRows(rows, ancestor);
    KeptByIndex(rows, ancestor);
    forall i, j | 0 <= i < j < |q| && q[i].l1Block > ancestor
      ensures q[j].l1Block > ancestor
    {
      assert i !in kept && i !in Indices(|kept|) && j !in Indices(|kept|) && j !in kept.Keys;
    }
  }

  ghost predicate DeletesSuffix(q: seq<Stored>, ancestor: nat) {
    forall i, j :: 0 <= i < j < |q| && q[i].l1Block > ancestor ==> q[j].l1Block > ancestor
  }

  lemma {:induction false} TruncateStops(q: seq<Stored>, ancestor: nat)
    ensures var n := |Truncate(q, ancestor)|;
            && (forall i :: 0 <= i < n ==> q[i].l1Block <= ancestor)
            && (n < |q| ==> q[n].l1Block > ancestor)
    decreases |q|
  {
    if q != [] {
      TruncateStops(q[1..], ancestor);
      assert forall i :: 0 < i < |q| ==> q[i] == q[1..][i - 1];
    }
  }

  // ---- Using the hash ----

  /** The rolling hash continued from `start`. */
  function FoldFrom(H: HashFn, start: Hash, txs: seq<Hash>): Hash {
    if txs == [] then start else H(FoldFrom(H, start, txs[..|txs| - 1]), txs[|txs| - 1])
  }

  lemma {:induction false} FoldContinues(H: HashFn, a: seq<Hash>, b: seq<Hash>)
    ensures Fold(H, a + b) == FoldFrom(H, Fold(H, a), b)
    decreases |b|
  {
    if b == [] {
      assert a + b == a;
    } else {
      assert (a + b)[..|a + b| - 1] == a + b[..|b| - 1];
      FoldContinues(H, a, b[..|b| - 1]);
    }
  }

  /** The queue hash of a later message is the earlier one's, continued over the messages between. */
  lemma QueueHashContinues(H: HashFn, q: seq<Stored>, v2: nat, i: nat, j: nat)
    requires Hashed(H, q, v2) && v2 <= i <= j < |q|
    ensures q[i].queueHash.Some? && q[j].queueHash.Some?
    ensures q[j].queueHash.value == FoldFrom(H, q[i].queueHash.value, TxHashes(q)[i + 1..j + 1])
  {
    var txs := TxHashes(q);
    assert txs[v2..j + 1] == txs[v2..i + 1] + txs[i + 1..j + 1];
    FoldContinues(H, txs[v2..i + 1], txs[i + 1..j + 1]);
  }
}
