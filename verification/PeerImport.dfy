/**
 Importing a block announced by a peer: extending the head, or searching backwards for the block
 a fork shares with the canonical chain, without ever leaving the safe block.
 */
module PeerImport {
  import opened Primitives
  import opened ForkchoiceEngine

  const HEADER_FETCH_COUNT: nat := 100

  datatype Block = Block(number: nat, hash: Hash, parentHash: Hash, timestamp: nat)

  function InfoOf(b: Block): BlockInfo {
    BlockInfo(b.number, b.hash)
  }

  // ---- What peers and the L2 client serve ----

  /** The blocks peers serve, by hash, with every ancestor. */
  ghost predicate Closed(pool: map<Hash, Block>) {
    forall h :: h in pool ==>
      && pool[h].hash == h
      && (pool[h].number > 0 ==>
            pool[h].parentHash in pool && pool[pool[h].parentHash].number == pool[h].number - 1)
  }

  ghost predicate Holds(pool: map<Hash, Block>, b: Block) {
    b.hash in pool && pool[b.hash] == b
  }

  /** The canonical chain by number, up to the Engine's head; a hash names one block. */
  ghost predicate Canonical(canon: seq<Block>, pool: map<Hash, Block>) {
    && (forall i :: 0 <= i < |canon| ==> canon[i].number == i)
    && (forall i :: 0 < i < |canon| ==> canon[i].parentHash == canon[i - 1].hash)
    && (forall i :: 0 <= i < |canon| && canon[i].hash in pool ==> pool[canon[i].hash] == canon[i])
  }

  /** The block numbered `n` on the branch that ends at `b`. */
  ghost function AncestorAt(pool: map<Hash, Block>, b: Block, n: nat): (r: Block)
    requires Closed(pool) && Holds(pool, b) && n <= b.number
    ensures Holds(pool, r) && r.number == n
    decreases b.number
  {
    if n == b.number then b else AncestorAt(pool, pool[b.parentHash], n)
  }

  /** The branch from number `from` up to `b`. */
  ghost function Branch(pool: map<Hash, Block>, b: Block, from: nat): (r: seq<Block>)
    requires Closed(pool) && Holds(pool, b) && from <= b.number + 1
  {
    seq(b.number + 1 - from, i requires 0 <= i < b.number + 1 - from => AncestorAt(pool, b, from + i))
  }

  /** `n` is a block the branch of `b` shares with the canonical chain. */
  ghost predicate Shared(pool: map<Hash, Block>, canon: seq<Block>, b: Block, n: nat)
    requires Closed(pool) && Holds(pool, b)
  {
    n <= b.number && n < |canon| && AncestorAt(pool, b, n) == canon[n]
  }

  lemma {:induction false} AncestorOfAncestor(pool: map<Hash, Block>, b: Block, m: nat, n: nat)
    requires Closed(pool) && Holds(pool, b) && n <= m <= b.number
    ensures AncestorAt(pool, AncestorAt(pool, b, m), n) == AncestorAt(pool, b, n)
    decreases b.number
  {
    if m < b.number {
      AncestorOfAncestor(pool, pool[b.parentHash], m, n);
    }
  }

  lemma ParentOnBranch(pool: map<Hash, Block>, b: Block, n: nat)
    requires Closed(pool) && Holds(pool, b) && 0 < n <= b.number
    ensures AncestorAt(pool, b, n).parentHash == AncestorAt(pool, b, n - 1).hash
  {
    AncestorOfAncestor(pool, b, n, n - 1);
    var x := AncestorAt(pool, b, n);
    assert AncestorAt(pool, x, n - 1) == pool[x.parentHash];
  }

  /** Whatever is below a shared block is shared. */
  lemma {:induction false} SharedBelow(pool: map<Hash, Block>, canon: seq<Block>, b: Block, m: nat, n: nat)
    requires Closed(pool) && Holds(pool, b) && Canonical(canon, pool) && Shared(pool, canon, b, m) && n <= m
    ensures Shared(pool, canon, b, n)
    decreases m
  {
    if n < m {
      ParentOnBranch(pool, b, m);
      SharedBelow(pool, canon, b, m - 1, n);
    }
  }

  /** `count` blocks of the branch ending at `h`, highest first. */
  function Range(pool: map<Hash, Block>, h: Hash, count: nat): (r: seq<Block>)
    requires Closed(pool) && h in pool && count <= pool[h].number + 1
    ensures |r| == count
    ensures forall i :: 0 <= i < count ==> r[i] == AncestorAt(pool, pool[h], pool[h].number - i)
    decreases count
  {
    if count == 0 then []
    else if count == 1 then [pool[h]]
    else [pool[h]] + Range(pool, pool[h].parentHash, count - 1)
  }

  // ---- Deciding what to do with the block ----

  datatype Decision =
    | FinalizedBlockReceived
    | FailedConsensus
    | Optimistic
    | AlreadyKnown
    | SafeReorg
    | OldFork
    | Extend(chain: seq<Block>)
    | Fork(chain: seq<Block>)

  predicate Imports(d: Decision) {
    d.Extend? || d.Fork?
  }

  /** The Engine's head and safe blocks are on the canonical chain, and the head is its tip. */
  ghost predicate OnCanon(fcs: Fcs, canon: seq<Block>) {
    && fcs.head.number + 1 == |canon| && InfoOf(canon[fcs.head.number]) == fcs.head
    && fcs.safe.number < |canon| && InfoOf(canon[fcs.safe.number]) == fcs.safe
  }

  /** The chain is exactly the branch of `b` above its highest canonical block, numbered at least `safe`. */
  ghost predicate AttachesAt(pool: map<Hash, Block>, canon: seq<Block>, b: Block, safe: nat, chain: seq<Block>, k: nat)
    requires Closed(pool) && Holds(pool, b)
  {
    && safe <= k < b.number && Shared(pool, canon, b, k) && !Shared(pool, canon, b, k + 1)
    && chain == Branch(pool, b, k + 1)
  }

  method FindCommon(headers: seq<Block>, canon: seq<Block>) returns (index: Option<nat>)
    requires forall i :: 0 <= i < |headers| ==> headers[i].number < |canon|
    ensures index.Some? ==> index.value < |headers| && headers[index.value].hash == canon[headers[index.value].number].hash
    ensures forall i :: 0 <= i < (if index.Some? then index.value else |headers|) ==>
              headers[i].hash != canon[headers[i].number].hash
  {
    for i := 0 to |headers|
      invariant forall k :: 0 <= k < i ==> headers[k].hash != canon[headers[k].number].hash
    {
      if headers[i].hash == canon[headers[i].number].hash {
        return Some(i);
      }
    }
    return None;
  }

  method PushAllFront(deque: seq<Block>, headers: seq<Block>) returns (r: seq<Block>)
    ensures r == Reverse(headers) + deque
  {
    r := deque;
    for i := 0 to |headers|
      invariant r == Reverse(headers[..i]) + deque
    {
      r := [headers[i]] + r;
      assert headers[..i + 1] == headers[..i] + [headers[i]];
      assert Reverse(headers[..i + 1]) == [headers[i]] + Reverse(headers[..i]);
    }
    assert headers[..|headers|] == headers;
  }

  /** The headers fetched below `from` continue its branch downwards. */
  lemma FetchedBelow(pool: map<Hash, Block>, b: Block, from: nat, count: nat)
    requires Closed(pool) && Holds(pool, b) && 0 < from <= b.number && count <= from
    ensures var h := AncestorAt(pool, b, from).parentHash;
            && h in pool && pool[h].number == from - 1
            && forall i :: 0 <= i < count ==> Range(pool, h, count)[i] == AncestorAt(pool, b, from - 1 - i)
  {
    ParentOnBranch(pool, b, from);
    var low := AncestorAt(pool, b, from - 1);
    forall i | 0 <= i < count
      ensures Range(pool, low.hash, count)[i] == AncestorAt(pool, b, from - 1 - i)
    {
      AncestorOfAncestor(pool, b, from - 1, from - 1 - i);
    }
  }

  lemma BranchGrows(pool: map<Hash, Block>, b: Block, from: nat, headers: seq<Block>)
    requires Closed(pool) && Holds(pool, b) && |headers| <= from <= b.number
    requires forall i :: 0 <= i < |headers| ==> headers[i] == AncestorAt(pool, b, from - 1 - i)
    ensures Reverse(headers) + Branch(pool, b, from) == Branch(pool, b, from - |headers|)
  {
  }

  lemma SingleBranch(pool: map<Hash, Block>, b: Block)
    requires Closed(pool) && Holds(pool, b)
    ensures Branch(pool, b, b.number) == [b]
  {
    assert Branch(pool, b, b.number)[0] == AncestorAt(pool, b, b.number + 0);
  }

  lemma RangeIsBranch(pool: map<Hash, Block>, b: Block, count: nat)
    requires Closed(pool) && Holds(pool, b) && count <= b.number + 1
    ensures Reverse(Range(pool, b.hash, count)) == Branch(pool, b, b.number + 1 - count)
  {
  }

  /** No block of the branch from `from` up is canonical. */
  ghost predicate NoneShared(pool: map<Hash, Block>, canon: seq<Block>, b: Block, from: nat)
    requires Closed(pool) && Holds(pool, b)
  {
    forall n :: from <= n <= b.number ==> !Shared(pool, canon, b, n)
  }

  /** Some block of the branch above `safe` is canonical. */
  ghost predicate SharesAbove(pool: map<Hash, Block>, canon: seq<Block>, b: Block, safe: nat)
    requires Closed(pool) && Holds(pool, b)
  {
    exists n :: safe < n && Shared(pool, canon, b, n)
  }

  lemma NoneAbove(pool: map<Hash, Block>, canon: seq<Block>, b: Block, safe: nat)
    requires Closed(pool) && Holds(pool, b) && NoneShared(pool, canon, b, safe + 1)
    ensures !SharesAbove(pool, canon, b, safe)
  {
  }

  /** Headers that continue the branch below `front`, highest first. */
  ghost predicate Below(pool: map<Hash, Block>, b: Block, front: nat, headers: seq<Block>)
    requires Closed(pool) && Holds(pool, b)
  {
    && |headers| <= front <= b.number
    && forall i :: 0 <= i < |headers| ==> headers[i] == AncestorAt(pool, b, front - 1 - i)
  }

  lemma NotFound(pool: map<Hash, Block>, canon: seq<Block>, b: Block, front: nat, headers: seq<Block>)
    requires Closed(pool) && Holds(pool, b) && NoneShared(pool, canon, b, front) && Below(pool, b, front, headers)
    requires forall i :: 0 <= i < |headers| ==> headers[i].number < |canon| && headers[i].hash != canon[headers[i].number].hash
    ensures NoneShared(pool, canon, b, front - |headers|)
  {
    forall n | front - |headers| <= n < front
      ensures !Shared(pool, canon, b, n)
    {
      assert headers[front - 1 - n] == AncestorAt(pool, b, n);
    }
  }

  lemma Found(pool: map<Hash, Block>, canon: seq<Block>, b: Block, safe: nat, front: nat, headers: seq<Block>, i: nat)
    requires Closed(pool) && Holds(pool, b) && Canonical(canon, pool) && Below(pool, b, front, headers)
    requires i < |headers| && headers[i].number < |canon| && headers[i].hash == canon[headers[i].number].hash
    requires safe < front - 1 - i && NoneShared(pool, canon, b, front)
    requires forall j :: 0 <= j < i ==> headers[j].number < |canon| && headers[j].hash != canon[headers[j].number].hash
    ensures SharesAbove(pool, canon, b, safe)
    ensures AttachesAt(pool, canon, b, safe, Reverse(headers[..i]) + Branch(pool, b, front), front - 1 - i)
  {
    var k := front - 1 - i;
    assert headers[i] == AncestorAt(pool, b, k);
    assert Shared(pool, canon, b, k);
    NotFound(pool, canon, b, front, headers[..i]);
    assert !Shared(pool, canon, b, k + 1);
    BranchGrows(pool, b, front, headers[..i]);
  }

  /** Fetches up to a hundred headers below the first one known, none at or below safe. */
  method FetchBelow(pool: map<Hash, Block>, ghost b: Block, safe: nat, first: Block) returns (fetched: seq<Block>)
    requires Closed(pool) && Holds(pool, b)
    requires safe + 1 < first.number <= b.number && first == AncestorAt(pool, b, first.number)
    ensures Below(pool, b, first.number, fetched) && 0 < |fetched| < first.number - safe
    ensures forall i :: 0 <= i < |fetched| ==> fetched[i].number == first.number - 1 - i
  {
    var fetchCount := Min(HEADER_FETCH_COUNT, first.number - 1 - safe);
    FetchedBelow(pool, b, first.number, fetchCount);
    fetched := Range(pool, first.parentHash, fetchCount);
  }

  /**
   One round of the search: up to a hundred headers below the ones known, down to the one above safe.
   Either one of them is canonical and the ones above it complete the chain, or none is and all are known.
   */
  method SearchRound(pool: map<Hash, Block>, canon: seq<Block>, b: Block, safe: nat, known: seq<Block>, ghost front: nat)
    returns (found: bool, headers: seq<Block>, ghost next: nat)
    requires Closed(pool) && Holds(pool, b) && Canonical(canon, pool)
    requires safe + 1 < front <= b.number && front <= |canon| && known == Branch(pool, b, front)
    requires NoneShared(pool, canon, b, front)
    ensures safe < next < front
    ensures found ==> SharesAbove(pool, canon, b, safe) && AttachesAt(pool, canon, b, safe, headers, next)
    ensures !found ==> headers == Branch(pool, b, next) && NoneShared(pool, canon, b, next)
  {
    assert known[0] == AncestorAt(pool, b, front);
    var fetched := FetchBelow(pool, b, safe, known[0]);
    var index := FindCommon(fetched, canon);
    RoundIs(pool, canon, b, safe, front, fetched, index);
    headers := PushAllFront(known, if index.Some? then fetched[..index.value] else fetched);
    return index.Some?, headers, if index.Some? then front - 1 - index.value else front - |fetched|;
  }

  /** What a round amounts to: the fetched headers above the first canonical one, or all of them. */
  lemma RoundIs(pool: map<Hash, Block>, canon: seq<Block>, b: Block, safe: nat, front: nat, fetched: seq<Block>, index: Option<nat>)
    requires Closed(pool) && Holds(pool, b) && Canonical(canon, pool) && Below(pool, b, front, fetched)
    requires NoneShared(pool, canon, b, front) && |fetched| < front - safe
    requires forall i :: 0 <= i < |fetched| ==> fetched[i].number < |canon|
    requires index.Some? ==> index.value < |fetched| && fetched[index.value].hash == canon[fetched[index.value].number].hash
    requires forall i :: 0 <= i < (if index.Some? then index.value else |fetched|) ==>
               fetched[i].hash != canon[fetched[i].number].hash
    ensures index.Some? ==>
              && SharesAbove(pool, canon, b, safe)
              && AttachesAt(pool, canon, b, safe, Reverse(fetched[..index.value]) + Branch(pool, b, front), front - 1 - index.value)
    ensures index.None? ==>
              && Reverse(fetched) + Branch(pool, b, front) == Branch(pool, b, front - |fetched|)
              && NoneShared(pool, canon, b, front - |fetched|)
  {
    if index.Some? {
      Found(pool, canon, b, safe, front, fetched, index.value);
    } else {
      NotFound(pool, canon, b, front, fetched);
      BranchGrows(pool, b, front, fetched);
    }
  }

  /** Searches backwards, round by round, for a canonical block above the safe one. */
  method SearchFork(pool: map<Hash, Block>, canon: seq<Block>, b: Block, safe: nat, start: nat, known: seq<Block>)
    returns (d: Decision)
    requires Closed(pool) && Holds(pool, b) && Canonical(canon, pool)
    requires safe < start <= b.number && start <= |canon| && known == Branch(pool, b, start)
    requires NoneShared(pool, canon, b, start)
    ensures d.SafeReorg? || d.Fork?
    ensures d.Fork? ==> exists k :: safe < k < b.number && AttachesAt(pool, canon, b, safe, d.chain, k)
    ensures d.Fork? <==> SharesAbove(pool, canon, b, safe)
  {
    var newHeaders := known;
    ghost var front := start;
    assert newHeaders[0] == AncestorAt(pool, b, front);
    while safe + 1 < newHeaders[0].number
      invariant safe < front <= start && newHeaders == Branch(pool, b, front)
      invariant newHeaders != [] && newHeaders[0] == AncestorAt(pool, b, front)
      invariant NoneShared(pool, canon, b, front)
      decreases front - safe
    {
      var found;
      found, newHeaders, front := SearchRound(pool, canon, b, safe, newHeaders, front);
      if found {
        return Fork(newHeaders);
      }
      assert newHeaders[0] == AncestorAt(pool, b, front);
    }
    NoneAbove(pool, canon, b, safe);
    return SafeReorg;
  }

  /** The canonical block with this hash. */
  function ByHash(canon: seq<Block>, h: Hash): (r: Option<nat>)
    ensures r.Some? ==> r.value < |canon| && canon[r.value].hash == h
    ensures r.None? ==> forall i :: 0 <= i < |canon| ==> canon[i].hash != h
  {
    if canon == [] then None
    else if canon[|canon| - 1].hash == h then Some(|canon| - 1)
    else ByHash(canon[..|canon| - 1], h)
  }

  /** The cheap checks let the block through: it is new, recent and above the safe block. */
  predicate Considered(canon: seq<Block>, fcs: Fcs, b: Block, consensusPasses: bool, threshold: nat)
    requires fcs.head.number < |canon|
  {
    && fcs.finalized.number < b.number && consensusPasses && b.number <= fcs.head.number + threshold
    && (b.number <= fcs.head.number ==>
          && canon[b.number].hash != b.hash && fcs.safe.number < b.number
          && canon[fcs.head.number].timestamp < b.timestamp)
  }

  /**
   The branch can be attached: it shares a canonical block above the safe one, continues the
   head, or is a single block on top of the safe block.
   */
  ghost predicate Attachable(pool: map<Hash, Block>, canon: seq<Block>, fcs: Fcs, b: Block)
    requires Closed(pool) && Holds(pool, b) && fcs.safe.number < |canon|
  {
    || SharesAbove(pool, canon, b, fcs.safe.number)
    || (fcs.head.number < b.number && Shared(pool, canon, b, fcs.head.number))
    || b.parentHash == canon[fcs.safe.number].hash
  }

  lemma CanonicalParent(pool: map<Hash, Block>, canon: seq<Block>, b: Block, n: nat, p: nat)
    requires Closed(pool) && Holds(pool, b) && Canonical(canon, pool) && p < |canon|
    requires 0 < n <= b.number && AncestorAt(pool, b, n).parentHash == canon[p].hash
    ensures p == n - 1 && Shared(pool, canon, b, n - 1)
  {
    ParentOnBranch(pool, b, n);
    assert pool[canon[p].hash] == canon[p];
  }

  /**
   Every chain that is imported is the received block's branch above a canonical block numbered
   at least `safe`; and exactly the considered blocks whose branch can be attached are imported.
   */
  method Decide(pool: map<Hash, Block>, canon: seq<Block>, fcs: Fcs, b: Block, consensusPasses: bool, threshold: nat)
    returns (d: Decision)
    requires Closed(pool) && Holds(pool, b) && Canonical(canon, pool) && OnCanon(fcs, canon) && WellFormed(fcs)
    ensures Imports(d) ==> exists k :: AttachesAt(pool, canon, b, fcs.safe.number, d.chain, k)
    ensures Imports(d) <==> Considered(canon, fcs, b, consensusPasses, threshold) && Attachable(pool, canon, fcs, b)
    ensures d.FinalizedBlockReceived? <==> b.number <= fcs.finalized.number
    ensures d.FailedConsensus? <==> fcs.finalized.number < b.number && !consensusPasses
    ensures var passed := fcs.finalized.number < b.number && consensusPasses;
            && (d.Optimistic? <==> passed && fcs.head.number + threshold < b.number)
            && (d.Extend? <==> passed && fcs.head.number < b.number <= fcs.head.number + threshold &&
                               Shared(pool, canon, b, fcs.head.number))
            && (d.AlreadyKnown? <==> passed && b.number <= fcs.head.number && canon[b.number].hash == b.hash)
            && (d.OldFork? <==> passed && fcs.safe.number < b.number <= fcs.head.number && canon[b.number].hash != b.hash &&
                                b.timestamp <= canon[fcs.head.number].timestamp)
  {
    if b.number <= fcs.finalized.number {
      return FinalizedBlockReceived;
    }
    if !consensusPasses {
      return FailedConsensus;
    }
    if b.number > fcs.head.number + threshold {
      return Optimistic;
    }
    if b.number > fcs.head.number {
      d := DecideAboveHead(pool, canon, fcs, b);
    } else {
      d := DecideBelowHead(pool, canon, fcs, b);
    }
  }

  /** The headers of the branch above the canonical tip `head`. */
  lemma BranchAboveHead(pool: map<Hash, Block>, canon: seq<Block>, b: Block, head: nat)
    requires Closed(pool) && Holds(pool, b) && Canonical(canon, pool) && head + 1 == |canon| && head < b.number
    ensures var first := AncestorAt(pool, b, head + 1);
            && Branch(pool, b, head + 1) != [] && Branch(pool, b, head + 1)[0] == first
            && NoneShared(pool, canon, b, head + 1)
            && (first.parentHash == canon[head].hash <==> Shared(pool, canon, b, head))
  {
    ParentOnBranch(pool, b, head + 1);
    if AncestorAt(pool, b, head + 1).parentHash == canon[head].hash {
      CanonicalParent(pool, canon, b, head + 1, head);
    }
  }

  /** Once the head is not shared, only a canonical block above the safe one can be attached to. */
  lemma AttachableAboveHead(pool: map<Hash, Block>, canon: seq<Block>, fcs: Fcs, b: Block)
    requires Closed(pool) && Holds(pool, b) && Canonical(canon, pool) && OnCanon(fcs, canon) && WellFormed(fcs)
    requires fcs.head.number < b.number && !Shared(pool, canon, b, fcs.head.number)
    ensures Attachable(pool, canon, fcs, b) <==> SharesAbove(pool, canon, b, fcs.safe.number)
  {
    if b.parentHash == canon[fcs.safe.number].hash {
      CanonicalParent(pool, canon, b, b.number, fcs.safe.number);
    }
  }

  method HeadersAboveHead(pool: map<Hash, Block>, b: Block, head: nat) returns (newHeaders: seq<Block>)
    requires Closed(pool) && Holds(pool, b) && head < b.number
    ensures newHeaders == Branch(pool, b, head + 1)
  {
    if b.number > head + 1 {
      newHeaders := Reverse(Range(pool, b.hash, b.number - head));
      RangeIsBranch(pool, b, b.number - head);
    } else {
      newHeaders := [b];
      SingleBranch(pool, b);
    }
  }

  method DecideAboveHead(pool: map<Hash, Block>, canon: seq<Block>, fcs: Fcs, b: Block) returns (d: Decision)
    requires Closed(pool) && Holds(pool, b) && Canonical(canon, pool) && OnCanon(fcs, canon) && WellFormed(fcs)
    requires fcs.head.number < b.number
    ensures Imports(d) ==> exists k :: AttachesAt(pool, canon, b, fcs.safe.number, d.chain, k)
    ensures Imports(d) <==> Attachable(pool, canon, fcs, b)
    ensures Imports(d) || d.SafeReorg?
    ensures d.Extend? <==> Shared(pool, canon, b, fcs.head.number)
  {
    var head := fcs.head.number;
    var newHeaders := HeadersAboveHead(pool, b, head);
    BranchAboveHead(pool, canon, b, head);
    if newHeaders[0].parentHash == fcs.head.hash {
      assert AttachesAt(pool, canon, b, fcs.safe.number, newHeaders, head);
      return Extend(newHeaders);
    }
    AttachableAboveHead(pool, canon, fcs, b);
    d := SearchFork(pool, canon, b, fcs.safe.number, head + 1, newHeaders);
  }

  method DecideBelowHead(pool: map<Hash, Block>, canon: seq<Block>, fcs: Fcs, b: Block) returns (d: Decision)
    requires Closed(pool) && Holds(pool, b) && Canonical(canon, pool) && OnCanon(fcs, canon) && WellFormed(fcs)
    requires fcs.finalized.number < b.number <= fcs.head.number
    ensures Imports(d) ==> exists k :: AttachesAt(pool, canon, b, fcs.safe.number, d.chain, k)
    ensures Imports(d) <==> Considered(canon, fcs, b, true, 0) && Attachable(pool, canon, fcs, b)
    ensures d.AlreadyKnown? || d.SafeReorg? || d.OldFork? || d.Fork?
    ensures d.AlreadyKnown? <==> canon[b.number].hash == b.hash
    ensures d.OldFork? <==>
              canon[b.number].hash != b.hash && fcs.safe.number < b.number && b.timestamp <= canon[fcs.head.number].timestamp
  {
    var safe := fcs.safe.number;
    if canon[b.number].hash == b.hash {
      return AlreadyKnown;
    }
    if b.number <= safe {
      return SafeReorg;
    }
    if b.timestamp <= canon[fcs.head.number].timestamp {
      return OldFork;
    }
    SingleBranch(pool, b);
    var parent := ByHash(canon, b.parentHash);
    if parent.Some? {
      CanonicalParent(pool, canon, b, b.number, parent.value);
      assert AttachesAt(pool, canon, b, safe, [b], parent.value);
      return if canon[parent.value].number >= safe then Fork([b]) else SafeReorg;
    }
    d := SearchFork(pool, canon, b, safe, b.number, [b]);
  }

  /** An attached chain is hash-linked from the canonical block up to the received block. */
  lemma AttachedChainIsLinked(pool: map<Hash, Block>, canon: seq<Block>, b: Block, safe: nat, chain: seq<Block>, k: nat)
    requires Closed(pool) && Holds(pool, b) && AttachesAt(pool, canon, b, safe, chain, k)
    ensures |chain| == b.number - k && chain[|chain| - 1] == b
    ensures chain[0].parentHash == canon[k].hash
    ensures forall i :: 0 < i < |chain| ==> chain[i].parentHash == chain[i - 1].hash
  {
    assert chain[|chain| - 1] == AncestorAt(pool, b, b.number);
    forall i | 0 <= i < |chain|
      ensures chain[i].parentHash == AncestorAt(pool, b, k + i).hash
    {
      assert chain[i] == AncestorAt(pool, b, k + 1 + i);
      ParentOnBranch(pool, b, k + 1 + i);
    }
  }

  /**
   A fork of two or more blocks that leaves the canonical chain exactly at the safe block, below
   the head, is turned away although it would keep the safe block: the search stops one block short.
   */
  lemma ForkAtSafeIsRejected(pool: map<Hash, Block>, canon: seq<Block>, fcs: Fcs, b: Block)
    requires Closed(pool) && Holds(pool, b) && Canonical(canon, pool) && OnCanon(fcs, canon) && WellFormed(fcs)
    requires fcs.safe.number + 1 < b.number && fcs.safe.number < fcs.head.number
    requires Shared(pool, canon, b, fcs.safe.number) && !Shared(pool, canon, b, fcs.safe.number + 1)
    ensures AttachesAt(pool, canon, b, fcs.safe.number, Branch(pool, b, fcs.safe.number + 1), fcs.safe.number)
    ensures !Attachable(pool, canon, fcs, b)
  {
    var safe := fcs.safe.number;
    if n :| safe < n && Shared(pool, canon, b, n) {
      SharedBelow(pool, canon, b, n, safe + 1);
    }
    if b.parentHash == canon[safe].hash {
      CanonicalParent(pool, canon, b, b.number, safe);
    }
  }

  const GENESIS := Block(0, 1, ZERO_HASH, 0)
  const MAIN := [GENESIS, Block(1, 2, 1, 10), Block(2, 3, 2, 20)]
  const FORK_1 := Block(1, 11, 1, 15)
  const FORK_2 := Block(2, 12, 11, 25)
  const SERVED: map<Hash, Block> := map[1 := GENESIS, 11 := FORK_1, 12 := FORK_2]
  const AT_GENESIS := Fcs(BlockInfo(2, 3), BlockInfo(0, 1), BlockInfo(0, 1))

  lemma ForkLeavesAtSafe()
    ensures Closed(SERVED) && Holds(SERVED, FORK_2) && Canonical(MAIN, SERVED)
    ensures AncestorAt(SERVED, FORK_2, 1) == FORK_1 && AncestorAt(SERVED, FORK_2, 0) == GENESIS
    ensures Shared(SERVED, MAIN, FORK_2, 0) && !Shared(SERVED, MAIN, FORK_2, 1)
  {
    assert AncestorAt(SERVED, FORK_1, 0) == AncestorAt(SERVED, GENESIS, 0);
  }

  /** A newer two-block fork on the safe genesis block passes every cheap check and is turned away. */
  method ForkAtSafeExample() returns (d: Decision)
    ensures Considered(MAIN, AT_GENESIS, FORK_2, true, 1) && !Imports(d)
    ensures Closed(SERVED) && Holds(SERVED, FORK_2)
    ensures AttachesAt(SERVED, MAIN, FORK_2, AT_GENESIS.safe.number, [FORK_1, FORK_2], 0)
  {
    ForkLeavesAtSafe();
    ForkAtSafeIsRejected(SERVED, MAIN, AT_GENESIS, FORK_2);
    assert Branch(SERVED, FORK_2, 1) == [FORK_1, FORK_2];
    d := Decide(SERVED, MAIN, AT_GENESIS, FORK_2, true, 1);
  }

  // ---- Importing ----

  datatype ImportResult =
    | Imported(status: PayloadStatus)
    | InvalidBlock
    | L1MessagesRejected
    | EngineFailed(result: FcuResult)
    | RequestFailed

  /** The Engine took the first `n` payloads: it answered every one, and none with INVALID. */
  ghost predicate Taken(payloadStatus: nat -> Option<PayloadStatus>, n: nat) {
    forall i: nat :: i < n ==> payloadStatus(i).Some? && payloadStatus(i).value != INVALID
  }

  /** The first payload the Engine did not take got this answer. */
  ghost predicate FirstRefusal(payloadStatus: nat -> Option<PayloadStatus>, n: nat, answer: Option<PayloadStatus>) {
    exists i: nat :: i < n && Taken(payloadStatus, i) && payloadStatus(i) == answer
  }

  /** The answers on which the head moves: an optimistic sync follows anything but INVALID. */
  predicate MovesHead(syncing: bool, answer: FcuAnswer) {
    answer.Answer? && if syncing then answer.status != INVALID else answer.status in {VALID, SYNCING}
  }

  /**
   Sends every block to the Engine and moves the head to the last one: exactly when the messages
   are valid, every payload was taken, the new head is coherent and the Engine follows.
   */
  method ImportChain(engine: Engine, chain: seq<Block>, l1MessagesValid: bool, syncing: bool,
                     payloadStatus: nat -> Option<PayloadStatus>, answer: FcuAnswer)
    returns (r: ImportResult)
    requires chain != []
    modifies engine
    ensures var head := InfoOf(chain[|chain| - 1]);
            && (r.Imported? ==> engine.View() == old(engine.View()).(head := head))
            && (!r.Imported? ==> engine.View() == old(engine.View()))
    ensures r.L1MessagesRejected? <==> !l1MessagesValid
    ensures r.RequestFailed? <==> l1MessagesValid && FirstRefusal(payloadStatus, |chain|, None)
    ensures var update := Update(old(engine.View()), Some(InfoOf(chain[|chain| - 1])), None, None);
            var asked := l1MessagesValid && Taken(payloadStatus, |chain|);
            && (r.Imported? <==> asked && update.Accept? && MovesHead(syncing, answer))
            && (r.Imported? ==> r.status == answer.status)
            && (r.InvalidBlock? <==>
                  || (l1MessagesValid && FirstRefusal(payloadStatus, |chain|, Some(INVALID)))
                  || (asked && update.Accept? && answer.Answer? && answer.status == INVALID))
            && (r.EngineFailed? ==>
                  && asked
                  && (r.result.FcsFailed? <==> update.Reject?) && (update.Reject? ==> r.result == FcsFailed(update.error))
                  && (r.result.TransportFailed? <==> update.Accept? && answer.Unreachable?)
                  && (r.result.Panicked? <==> update.Accept? && !syncing && answer.Answer? && answer.status == ACCEPTED))
  {
    if !l1MessagesValid {
      return L1MessagesRejected;
    }
    for i := 0 to |chain|
      invariant engine.View() == old(engine.View()) && engine.fcs == old(engine.fcs)
      invariant Taken(payloadStatus, i)
    {
      var status := payloadStatus(i);
      if status.None? {
        return RequestFailed;
      }
      if status.value == INVALID {
        return InvalidBlock;
      }
    }
    var head := InfoOf(chain[|chain| - 1]);
    var result;
    if syncing {
      result := engine.SyncOptimistically(head, answer);
    } else {
      result := engine.Update(Some(head), None, None, answer);
    }
    if !result.Responded? {
      return EngineFailed(result);
    }
    if result.status == INVALID {
      return InvalidBlock;
    }
    return Imported(result.status);
  }

  /** Moving the head to the end of an attached chain is coherent and keeps the safe block below it. */
  lemma AttachedKeepsSafe(pool: map<Hash, Block>, canon: seq<Block>, fcs: Fcs, b: Block, chain: seq<Block>, k: nat)
    requires Closed(pool) && Holds(pool, b) && Canonical(canon, pool) && OnCanon(fcs, canon) && WellFormed(fcs)
    requires AttachesAt(pool, canon, b, fcs.safe.number, chain, k)
    ensures chain != [] && chain[|chain| - 1] == b
    ensures fcs.safe.number <= b.number && InfoOf(AncestorAt(pool, b, fcs.safe.number)) == fcs.safe
    ensures Update(fcs, Some(InfoOf(b)), None, None) == Accept(fcs.(head := InfoOf(b)))
  {
    SharedBelow(pool, canon, b, k, fcs.safe.number);
    assert chain[|chain| - 1] == AncestorAt(pool, b, b.number);
  }

  /** Imports a chain that attaches: the new head is coherent, so only the Engine can turn it away. */
  method ImportAttached(engine: Engine, ghost pool: map<Hash, Block>, ghost canon: seq<Block>, ghost b: Block,
                        chain: seq<Block>, l1MessagesValid: bool, payloadStatus: nat -> Option<PayloadStatus>, answer: FcuAnswer)
    returns (r: ImportResult)
    requires Closed(pool) && Holds(pool, b) && Canonical(canon, pool)
    requires OnCanon(engine.View(), canon) && WellFormed(engine.View())
    requires exists k :: AttachesAt(pool, canon, b, engine.View().safe.number, chain, k)
    modifies engine
    ensures r.Imported? <==> l1MessagesValid && Taken(payloadStatus, |chain|) && MovesHead(false, answer)
    ensures r.L1MessagesRejected? <==> !l1MessagesValid
    ensures r.RequestFailed? <==> l1MessagesValid && FirstRefusal(payloadStatus, |chain|, None)
    ensures r.InvalidBlock? <==>
              || (l1MessagesValid && FirstRefusal(payloadStatus, |chain|, Some(INVALID)))
              || (l1MessagesValid && Taken(payloadStatus, |chain|) && answer.Answer? && answer.status == INVALID)
    ensures !(r.EngineFailed? && r.result.FcsFailed?)
    ensures r.Imported? ==>
              var safe := old(engine.View()).safe;
              && engine.View() == old(engine.View()).(head := InfoOf(b)) && WellFormed(engine.View())
              && safe.number <= b.number && InfoOf(AncestorAt(pool, b, safe.number)) == safe
    ensures !r.Imported? ==> engine.View() == old(engine.View())
  {
    ghost var k :| AttachesAt(pool, canon, b, engine.View().safe.number, chain, k);
    AttachedKeepsSafe(pool, canon, engine.View(), b, chain, k);
    r := ImportChain(engine, chain, l1MessagesValid, false, payloadStatus, answer);
  }

  /**
   With L2 synced and consistent clients, the head update of an import is never rejected as
   `HeadBelowSafe` or otherwise; the safe and finalized blocks stay put and the safe block
   stays an ancestor of the new head.
   */
  method HandleBlockFromPeer(engine: Engine, pool: map<Hash, Block>, canon: seq<Block>, b: Block,
                             consensusPasses: bool, threshold: nat, l1MessagesValid: bool,
                             payloadStatus: nat -> Option<PayloadStatus>, answer: FcuAnswer)
    returns (d: Decision, r: Option<ImportResult>)
    requires Closed(pool) && Holds(pool, b) && Canonical(canon, pool)
    requires OnCanon(engine.View(), canon) && WellFormed(engine.View())
    modifies engine
    ensures r.Some? <==> Imports(d)
    ensures Imports(d) <==>
              Considered(canon, old(engine.View()), b, consensusPasses, threshold) && Attachable(pool, canon, old(engine.View()), b)
    ensures d.Optimistic? <==> old(engine.View()).finalized.number < b.number && consensusPasses &&
                               old(engine.View()).head.number + threshold < b.number
    ensures r.Some? ==> !(r.value.EngineFailed? && r.value.result.FcsFailed?)
    ensures r.Some? ==>
              (r.value.Imported? <==> l1MessagesValid && Taken(payloadStatus, |d.chain|) && MovesHead(false, answer))
    ensures r.Some? ==>
              && (r.value.L1MessagesRejected? <==> !l1MessagesValid)
              && (r.value.RequestFailed? <==> l1MessagesValid && FirstRefusal(payloadStatus, |d.chain|, None))
              && (r.value.InvalidBlock? <==>
                    || (l1MessagesValid && FirstRefusal(payloadStatus, |d.chain|, Some(INVALID)))
                    || (l1MessagesValid && Taken(payloadStatus, |d.chain|) && answer.Answer? && answer.status == INVALID))
    ensures d.Optimistic? ==>
              engine.View() == if MovesHead(true, answer) then old(engine.View()).(head := InfoOf(b)) else old(engine.View())
    ensures r.Some? && r.value.Imported? ==>
              var safe := old(engine.View()).safe;
              && engine.View() == old(engine.View()).(head := InfoOf(b)) && WellFormed(engine.View())
              && safe.number <= b.number && InfoOf(AncestorAt(pool, b, safe.number)) == safe
    ensures !(r.Some? && r.value.Imported?) && !d.Optimistic? ==> engine.View() == old(engine.View())
  {
    var fcs := Fcs(engine.fcs.head, engine.fcs.safe, engine.fcs.finalized);
    d := Decide(pool, canon, fcs, b, consensusPasses, threshold);
    r := None;
    if d.Optimistic? {
      var _ := engine.SyncOptimistically(InfoOf(b), answer);
    } else if Imports(d) {
      var result := ImportAttached(engine, pool, canon, b, d.chain, l1MessagesValid, payloadStatus, answer);
      r := Some(result);
    }
  }
}
