/**
 Where the watcher's guarantees end: the walk that never ends, the finalized tag that passes
 the tracked tail on another fork, the head that falls back to a tracked block, and an L1 whose
 finalized block is its head.
 */
module L1WatcherLimits {
  import opened Primitives
  import opened L1Watcher
  import opened L1WatcherRuns

  // ---- The walk that never ends ----

  ghost predicate Numbered(blocks: map<nat, Header>) {
    forall n :: n in blocks ==> blocks[n].number == n
  }

  /** Everything below `current` is served, down to genesis, and the walk stops at none of it. */
  ghost predicate NeverStops(tracked: seq<Header>, f: Header, current: Header, blocks: map<nat, Header>) {
    && !Stops(tracked, f, current)
    && forall n: nat :: n <= Pred(current.number) ==> n in blocks && !Stops(tracked, f, blocks[n])
  }

  lemma {:induction false} StuckWalkFails(tracked: seq<Header>, f: Header, current: Header, blocks: map<nat, Header>, lookups: nat)
    requires Numbered(blocks) && NeverStops(tracked, f, current, blocks)
    ensures WalkBack(tracked, f, current, blocks, lookups) == Failed(TransportError)
    decreases lookups
  {
    if lookups > 0 {
      StuckWalkFails(tracked, f, blocks[Pred(current.number)], blocks, lookups - 1);
    }
  }

  lemma {:induction false} LongWalkEnds(tracked: seq<Header>, f: Header, current: Header, blocks: map<nat, Header>)
    requires Numbered(blocks)
    requires WalkBack(tracked, f, current, blocks, current.number + 1) == Failed(TransportError)
    ensures NeverStops(tracked, f, current, blocks)
    decreases current.number
  {
    if current.number > 0 {
      LongWalkEnds(tracked, f, blocks[current.number - 1], blocks);
    }
  }

  /** The walk is still running however many lookups were answered. */
  ghost predicate RunsForever(tracked: seq<Header>, f: Header, latest: Header, blocks: map<nat, Header>) {
    forall lookups: nat :: WalkBack(tracked, f, latest, blocks, lookups) == Failed(TransportError)
  }

  /**
   The walk never ends exactly when every block from the latest one down to genesis is served
   and none of them is a stopping block: at genesis it asks for genesis again.
   */
  lemma WalkNeverEnds(tracked: seq<Header>, f: Header, latest: Header, blocks: map<nat, Header>)
    requires Numbered(blocks)
    ensures RunsForever(tracked, f, latest, blocks) <==> NeverStops(tracked, f, latest, blocks)
  {
    if NeverStops(tracked, f, latest, blocks) {
      forall lookups: nat
        ensures WalkBack(tracked, f, latest, blocks, lookups) == Failed(TransportError)
      {
        StuckWalkFails(tracked, f, latest, blocks, lookups);
      }
    }
    if RunsForever(tracked, f, latest, blocks) {
      LongWalkEnds(tracked, f, latest, blocks);
    }
  }

  /** On a chain served from genesis: the finalized block is off that chain and none of it is tracked. */
  lemma NeverStopsOffChain(tracked: seq<Header>, f: Header, c: seq<Header>)
    requires Linked(c) && c != [] && f.hash != ZERO_HASH
    ensures NeverStops(tracked, f, Last(c), Served(c)) <==>
            forall i :: 0 <= i < |c| ==> c[i].hash != f.hash && c[i] !in tracked
  {
    var blocks := Served(c);
    assert forall i :: 0 <= i < |c| ==> i in blocks && blocks[i] == c[i];
    if NeverStops(tracked, f, Last(c), blocks) {
      forall i | 0 <= i < |c|
        ensures c[i].hash != f.hash && c[i] !in tracked
      {
        if i < |c| - 1 {
          assert !Stops(tracked, f, blocks[i]);
        }
      }
    }
    if forall i :: 0 <= i < |c| ==> c[i].hash != f.hash && c[i] !in tracked {
      forall n: nat | n < |c|
        ensures !Stops(tracked, f, blocks[n])
      {
        if n > 0 {
          assert c[n - 1].hash != f.hash;
        }
      }
    }
  }

  // ---- The finalized tag passes the tail on another fork ----

  /** Every scanned block number has the same hash on the old chain and on `c`. */
  ghost predicate ScannedUnchanged(h: History, cursor: nat, c: seq<Header>) {
    forall n :: h.base < n <= cursor ==> n < |h.seen| && n < |c| && h.seen[n].hash == c[n].hash
  }

  /**
   A finalized block numbered past the tracked tail clears the tail, so no reorg is reported
   whatever happened to the chain. The index stays right exactly when no scanned block changed.
   */
  lemma PastTailIsSilent(h: History, s: State, range: nat, e: Event)
    requires e.Polled? && e.finalizedServed && e.latestServed && e.logsServed
    requires Agrees(h, s) && Serves(h, e.chain, e.finalizedAt) && s.tracked != []
    requires |h.seen| <= e.finalizedAt && |e.chain| <= U64_MAX
    requires |e.chain| - 1 - e.finalizedAt <= e.lookups
    ensures var s' := Step(s, range, PollOf(e)).0;
            && Quiet(s.sent, s'.sent)
            && (Indexed(h.(seen := e.chain), s') <==> ScannedUnchanged(h, s.cursor, e.chain))
  {
    var c, f := e.chain, e.finalizedAt;
    StepParts(s, range, e);
    PastTailLatest(h, s, c, f, e.lookups);
    var r := HandleLatest(HandleFinalized(s, c[f]), c[f], Last(c), Served(c), e.lookups);
    QuietPoll(s, c[f], [NewBlock(BlockInfo(Last(c).number, Last(c).hash))], r.0, Step(s, range, PollOf(e)).0);
    SilentIndex(h, s, range, c, r.0, Step(s, range, PollOf(e)).0);
  }

  /** With nothing left to compare against, the head is adopted and announced without a report. */
  lemma PastTailLatest(h: History, s: State, c: seq<Header>, f: nat, lookups: nat)
    requires Tracks(h, s) && Serves(h, c, f) && s.tracked != [] && |h.seen| <= f && |c| - 1 - f <= lookups
    ensures var s1 := HandleFinalized(s, c[f]);
            var r := HandleLatest(s1, c[f], Last(c), Served(c), lookups);
            && r.1.None? && r.0.cursor == s.cursor && r.0.scanned == s.scanned
            && r.0.sent == s1.sent + [NewBlock(BlockInfo(Last(c).number, Last(c).hash))]
  {
    var s1 := HandleFinalized(s, c[f]);
    assert s1.tracked == [] by {
      assert s.tracked[|s.tracked| - 1] == h.seen[|h.seen| - 1];
    }
    var j := LatestByWalk(s1, c, f, lookups);
    AdoptFresh(s1, c[j..], Last(c));
  }

  /** Adopting a chain with nothing tracked announces the head and nothing else. */
  lemma AdoptFresh(s: State, chain: seq<Header>, latest: Header)
    requires s.tracked == []
    ensures var r := Adopt(s, None, chain, latest);
            && r.sent == s.sent + [NewBlock(BlockInfo(latest.number, latest.hash))]
            && r.cursor == s.cursor && r.scanned == s.scanned
  {
  }

  /** Nothing sent between the two is a reorg. */
  ghost predicate Quiet(before: seq<Notification>, after: seq<Notification>) {
    before <= after && forall i :: |before| <= i < |after| ==> !after[i].Reorg?
  }

  lemma QuietTrans(a: seq<Notification>, b: seq<Notification>, c: seq<Notification>)
    requires Quiet(a, b) && Quiet(b, c)
    ensures Quiet(a, c)
  {
  }

  /** A poll that only announces a head, or nothing, and then scans or not reports no reorg. */
  lemma QuietPoll(s: State, f: Header, heads: seq<Notification>, s2: State, s': State)
    requires s2.sent == HandleFinalized(s, f).sent + heads && (forall i :: 0 <= i < |heads| ==> !heads[i].Reorg?)
    requires s'.sent == s2.sent || s'.sent == s2.sent + [Processed(s'.cursor)]
    ensures Quiet(s.sent, s'.sent)
  {
    assert Quiet(s.sent, HandleFinalized(s, f).sent);
    assert Quiet(HandleFinalized(s, f).sent, s2.sent);
    QuietTrans(s.sent, HandleFinalized(s, f).sent, s2.sent);
    assert Quiet(s2.sent, s'.sent);
    QuietTrans(s.sent, s2.sent, s'.sent);
  }

  lemma SilentIndex(h: History, s: State, range: nat, c: seq<Header>, s2: State, s': State)
    requires Indexed(h, s) && c != [] && |h.seen| < |c| <= U64_MAX
    requires s2.cursor == s.cursor && s2.scanned == s.scanned
    requires s' == if |c| - 1 == s2.cursor then s2 else Scan(s2, range, |c| - 1, Served(c))
    ensures Indexed(h.(seen := c), s') <==> ScannedUnchanged(h, s.cursor, c)
  {
    if h.base < s.cursor {
      assert s.cursor in s.scanned;
      assert s.cursor <= s'.cursor;
      assert forall n :: h.base < n <= s.cursor ==> n in s.scanned && n in s'.scanned && s'.scanned[n] == h.seen[n].hash;
    }
  }

  // ---- The head falls back to a tracked block ----

  /**
   A head that is itself a tracked block gives no mismatch, so nothing is reported however far it
   fell. When the logs arrive the scan pulls the cursor back and the index is right; when they do
   not, it is right exactly if the cursor was not above the new head.
   */
  lemma LoweredHeadIsSilent(h: History, s: State, range: nat, e: Event)
    requires e.Polled? && e.finalizedServed && e.latestServed
    requires Agrees(h, s) && Serves(h, e.chain, e.finalizedAt) && (|h.seen| <= e.finalizedAt ==> h.seen <= e.chain)
    requires Last(e.chain) in HandleFinalized(s, e.chain[e.finalizedAt]).tracked
    requires |e.chain| - 1 - e.finalizedAt <= e.lookups
    ensures var s' := Step(s, range, PollOf(e)).0;
            && Quiet(s.sent, s'.sent)
            && (Indexed(h.(seen := e.chain), s') <==> e.logsServed || s.cursor <= h.base || s.cursor < |e.chain|)
  {
    var c, f := e.chain, e.finalizedAt;
    StepParts(s, range, e);
    LoweredLatest(h, s, c, f, e.lookups);
    var r := HandleLatest(HandleFinalized(s, c[f]), c[f], Last(c), Served(c), e.lookups);
    LoweredPoll(h, s, range, c, f, e.logsServed, r.0, Step(s, range, PollOf(e)).0);
  }

  /** The cursor stays, and at most the head is announced. */
  lemma LoweredLatest(h: History, s: State, c: seq<Header>, f: nat, lookups: nat)
    requires Agrees(h, s) && Serves(h, c, f) && (|h.seen| <= f ==> h.seen <= c)
    requires Last(c) in HandleFinalized(s, c[f]).tracked && |c| - 1 - f <= lookups
    ensures var s1 := HandleFinalized(s, c[f]);
            var r := HandleLatest(s1, c[f], Last(c), Served(c), lookups);
            && r.1.None? && r.0.cursor == s.cursor && r.0.sent == s1.sent + HeadNotes(s1, Last(c))
            && IndexedWithin(c, h.base, r.0)
  {
    var s1 := HandleFinalized(s, c[f]);
    var reorg := ForkDetection(h, s, c, f, lookups);
    IndexedSame(h, s, h, s1);
    LoweredDetects(h, s1, c, f, HandleLatest(s1, c[f], Last(c), Served(c), lookups).0, reorg);
  }

  lemma LoweredDetects(h: History, s1: State, c: seq<Header>, f: nat, s2: State, reorg: Option<nat>)
    requires f < |c| && Detects(h, s1, c, f, s2, reorg) && Last(c) in s1.tracked && Indexed(h, s1)
    ensures s2.cursor == s1.cursor && s2.sent == s1.sent + HeadNotes(s1, Last(c)) && IndexedWithin(c, h.base, s2)
  {
    assert reorg.None?;
    DetectionKeepsIndex(h, s1, c, f, s2, reorg);
  }

  lemma LoweredPoll(h: History, s: State, range: nat, c: seq<Header>, f: nat, logsServed: bool, s2: State, s': State)
    requires f < |c| && IndexedWithin(c, h.base, s2) && s2.cursor == s.cursor
    requires var s1 := HandleFinalized(s, c[f]); s2.sent == s1.sent + HeadNotes(s1, Last(c))
    requires s' == if |c| - 1 == s2.cursor || !logsServed then s2 else Scan(s2, range, |c| - 1, Served(c))
    ensures Quiet(s.sent, s'.sent)
    ensures Indexed(h.(seen := c), s') <==> logsServed || s.cursor <= h.base || s.cursor < |c|
  {
    QuietPoll(s, c[f], HeadNotes(HandleFinalized(s, c[f]), Last(c)), s2, s');
    LoweredIndex(h, s, range, c, logsServed, s2, s');
  }

  lemma LoweredIndex(h: History, s: State, range: nat, c: seq<Header>, logsServed: bool, s2: State, s': State)
    requires c != [] && IndexedWithin(c, h.base, s2) && s2.cursor == s.cursor
    requires s' == if |c| - 1 == s2.cursor || !logsServed then s2 else Scan(s2, range, |c| - 1, Served(c))
    ensures Indexed(h.(seen := c), s') <==> logsServed || s.cursor <= h.base || s.cursor < |c|
  {
    if logsServed || s.cursor <= h.base || s.cursor < |c| {
      HandledKeepsIndex(h, c, range, logsServed, s2);
    }
    if Indexed(h.(seen := c), s') && h.base < s'.cursor {
      assert s'.cursor in s'.scanned;
    }
  }

  // ---- A full buffer ----

  /** Adopting a chain whose oldest retained block is not the first tracked one reports that one's parent. */
  lemma AdoptMisaligned(s: State, position: Option<nat>, chain: seq<Header>, latest: Header, adopted: seq<Header>)
    requires position.Some? ==> position.value <= |s.tracked|
    requires adopted == Combine(s.tracked, position, chain) && adopted != [] && s.tracked != []
    requires adopted[0].hash != s.tracked[0].hash
    ensures var r, n := Adopt(s, position, chain, latest), Pred(s.tracked[0].number);
            && r.sent == s.sent + [Reorg(n), NewBlock(BlockInfo(latest.number, latest.hash))]
            && r.cursor == Min(n, s.cursor) && r.scanned == s.scanned
  {
    assert FirstDifference(s.tracked, adopted) == Some(0);
  }

  /** The tracked blocks are the chain seen from some floor up, whatever is below it. */
  ghost predicate HoldsFrom(h: History, s: State, floor: nat) {
    floor < |h.seen| && Linked(h.seen) && s.tracked == h.seen[floor..]
  }

  /** A chain that continues the one seen by two blocks or more, so that the walk is needed. */
  ghost predicate ContinuesFar(h: History, s: State, c: seq<Header>, f: nat, floor: nat) {
    && HoldsFrom(h, s, floor) && Linked(c) && Collisionless(c, c)
    && h.seen <= c && |h.seen| + 2 <= |c| && f < floor
  }

  lemma DifferentHashes(c: seq<Header>, i: nat, j: nat)
    requires Linked(c) && Collisionless(c, c) && i < |c| && j < |c| && i != j
    ensures c[i].hash != c[j].hash
  {
    assert c[i].number != c[j].number;
  }

  lemma InSlice(c: seq<Header>, floor: nat, k: nat, j: nat)
    requires Linked(c) && floor <= k < |c| && j < |c|
    ensures c[j] in c[floor..k + 1] <==> floor <= j <= k
  {
    if c[j] in c[floor..k + 1] {
      var i :| 0 <= i < |c[floor..k + 1]| && c[floor..k + 1][i] == c[j];
      assert c[floor..k + 1][i] == c[floor + i];
    }
    if floor <= j <= k {
      assert c[floor..k + 1][j - floor] == c[j];
    }
  }

  /** The walk stops at the old head `c[k]`. */
  lemma WalkMeetsOldHead(s: State, c: seq<Header>, f: nat, floor: nat, k: nat, lookups: nat)
    requires Linked(c) && Collisionless(c, c) && f < floor <= k && k + 2 < |c| && s.tracked == c[floor..k + 1]
    requires |c| - 1 - f <= lookups
    ensures HandleLatest(s, c[f], Last(c), Served(c), lookups) == (Adopt(s, Some(k - floor), c[k..], Last(c)), None)
  {
    DifferentHashes(c, k, |c| - 1);
    DifferentHashes(c, k, |c| - 2);
    assert Last(s.tracked) == c[k];
    var j := LatestByWalk(s, c, f, lookups);
    InSlice(c, floor, k, k);
    InSlice(c, floor, k, j);
  }

  /**
   A chain that only continues the one seen is reported as a reorg if and only if it overflows the
   buffer: the comparison then starts at blocks of different height. The report is the block below
   the tracked ones, which is common.
   */
  lemma ContinuationReportsExactlyOnOverflow(h: History, s: State, c: seq<Header>, f: nat, floor: nat, lookups: nat)
    requires ContinuesFar(h, s, c, f, floor) && |c| - 1 - f <= lookups
    ensures var (r, error) := HandleLatest(s, c[f], Last(c), Served(c), lookups);
            && error.None?
            && var announced := NewBlock(BlockInfo(Last(c).number, Last(c).hash));
               r.sent == s.sent + if |c| - floor > HEADER_CAPACITY then [Reorg(Pred(floor)), announced] else [announced]
  {
    var k := |h.seen| - 1;
    SliceOfPrefix(c, h.seen, floor, s.tracked);
    WalkMeetsOldHead(s, c, f, floor, k, lookups);
    if |c| - floor > HEADER_CAPACITY {
      AdoptOverflowing(s, c, floor, k);
    } else {
      AdoptFitting(h.seen, s, c, floor, k);
    }
  }

  lemma SliceOfPrefix<T>(c: seq<T>, seen: seq<T>, floor: nat, tracked: seq<T>)
    requires seen <= c && floor < |seen| && tracked == seen[floor..]
    ensures tracked == c[floor..|seen|] && seen == c[..|seen|]
  {
  }

  lemma AdoptOverflowing(s: State, c: seq<Header>, floor: nat, k: nat)
    requires Linked(c) && Collisionless(c, c) && floor <= k < |c| && s.tracked == c[floor..k + 1]
    requires |c| - floor > HEADER_CAPACITY
    ensures Adopt(s, Some(k - floor), c[k..], Last(c)).sent ==
            s.sent + [Reorg(Pred(floor)), NewBlock(BlockInfo(Last(c).number, Last(c).hash))]
  {
    var kept := |c| - HEADER_CAPACITY;
    assert s.tracked[..k - floor] + c[k..] == c[floor..];
    assert c[floor..][|c[floor..]| - HEADER_CAPACITY..] == c[kept..];
    DifferentHashes(c, floor, kept);
    AdoptMisaligned(s, Some(k - floor), c[k..], Last(c), c[kept..]);
  }

  lemma AdoptFitting(seen: seq<Header>, s: State, c: seq<Header>, floor: nat, k: nat)
    requires Linked(seen) && floor <= k && k + 1 == |seen| && k < |c| && seen == c[..k + 1] && s.tracked == seen[floor..]
    requires |c| - floor <= HEADER_CAPACITY
    ensures Adopt(s, Some(k - floor), c[k..], Last(c)).sent == s.sent + [NewBlock(BlockInfo(Last(c).number, Last(c).hash))]
  {
    assert seen[..k + 1] == seen;
    CombineOnSeen(seen, c, floor, k);
  }

  /** Every scanned block below the floor has the same hash on the old chain and on `c`. */
  ghost predicate UnchangedBelow(h: History, cursor: nat, floor: nat, c: seq<Header>) {
    forall n :: h.base < n <= cursor && n < floor && n < |h.seen| && n < |c| ==> h.seen[n].hash == c[n].hash
  }

  /** A poll of a chain that shares no block with the tracked ones, however far below them it left. */
  ghost predicate LeavesBelow(h: History, s: State, e: Event, floor: nat) {
    && e.Polled? && e.finalizedServed && e.latestServed && e.logsServed
    && HoldsFrom(h, s, floor) && |h.seen| <= U64_MAX
    && e.finalizedAt < |e.chain| <= U64_MAX && e.finalizedAt < |h.seen| && |e.chain| - 1 - e.finalizedAt <= e.lookups
    && Linked(e.chain) && Collisionless(e.chain, e.chain) && Collisionless(h.seen, e.chain)
    && (forall i :: e.finalizedAt <= i < |e.chain| ==> e.chain[i] !in s.tracked)
    && Last(e.chain).parentHash != Last(h.seen).hash
  }

  lemma HashesLeaveTracked(h: History, s: State, c: seq<Header>, floor: nat, i: nat)
    requires HoldsFrom(h, s, floor) && Collisionless(h.seen, c) && i < |c| && c[i] !in s.tracked
    ensures forall k :: 0 <= k < |s.tracked| ==> s.tracked[k].hash != c[i].hash
  {
    forall k | 0 <= k < |s.tracked|
      ensures s.tracked[k].hash != c[i].hash
    {
      assert s.tracked[k] == h.seen[floor + k] && s.tracked[k] in s.tracked;
    }
  }

  /** The finalized block is none of the tracked ones and not past them: they all stay. */
  lemma FinalizedLeavesTracked(h: History, s: State, e: Event, floor: nat)
    requires LeavesBelow(h, s, e, floor)
    ensures var s1 := HandleFinalized(s, e.chain[e.finalizedAt]);
            && s1.tracked == s.tracked && s1.cursor == s.cursor && s1.scanned == s.scanned && |s.sent| <= |s1.sent|
  {
    HashesLeaveTracked(h, s, e.chain, floor, e.finalizedAt);
    assert Last(s.tracked) == h.seen[|h.seen| - 1];
  }

  lemma LeavesBelowLatest(h: History, s: State, e: Event, floor: nat)
    requires LeavesBelow(h, s, e, floor)
    ensures var c, s1 := e.chain, HandleFinalized(s, e.chain[e.finalizedAt]);
            var r := HandleLatest(s1, c[e.finalizedAt], Last(c), Served(c), e.lookups);
            && r.1.None? && r.0.scanned == s.scanned && r.0.cursor == Min(Pred(floor), s.cursor)
            && |s.sent| <= |s1.sent| < |r.0.sent| && r.0.sent[|s1.sent|] == Reorg(Pred(floor))
  {
    var c, f, s1 := e.chain, e.finalizedAt, HandleFinalized(s, e.chain[e.finalizedAt]);
    FinalizedLeavesTracked(h, s, e, floor);
    HashesLeaveTracked(h, s, c, floor, |c| - 1);
    assert Last(s.tracked) == Last(h.seen);
    var j := LatestByWalk(s1, c, f, e.lookups);
    forall i | j <= i < |c|
      ensures c[i].hash != s1.tracked[0].hash
    {
      HashesLeaveTracked(h, s, c, floor, i);
    }
    assert s1.tracked[0] == h.seen[floor];
    AdoptUnshared(s1, c, j);
  }

  /** Adopting blocks none of which is the first tracked one, whether they fit the buffer or not. */
  lemma AdoptUnshared(s: State, c: seq<Header>, j: nat)
    requires s.tracked != [] && j < |c| && forall i :: j <= i < |c| ==> c[i].hash != s.tracked[0].hash
    ensures var r, n := Adopt(s, None, c[j..], Last(c)), Pred(s.tracked[0].number);
            && r.sent == s.sent + [Reorg(n), NewBlock(BlockInfo(Last(c).number, Last(c).hash))]
            && r.cursor == Min(n, s.cursor) && r.scanned == s.scanned
  {
    var adopted := Combine(s.tracked, None, c[j..]);
    assert s.tracked[..0] + c[j..] == c[j..];
    assert adopted[0] == c[if |c| - j <= HEADER_CAPACITY then j else |c| - HEADER_CAPACITY];
    AdoptMisaligned(s, None, c[j..], Last(c), adopted);
  }

  /**
   A fork that leaves the old chain below the tracked blocks, as happens once the buffer has
   dropped blocks that are not final, is reported at the block below them. The report is a common
   block exactly when the fork is no deeper, and the index is right exactly when no scanned block
   below the floor changed.
   */
  lemma ForkBelowBufferIsRightExactly(h: History, s: State, range: nat, e: Event, floor: nat)
    requires LeavesBelow(h, s, e, floor) && Indexed(h, s)
    ensures var s', common := Step(s, range, PollOf(e)).0, CommonLength(h.seen, e.chain);
            && |s.sent| <= |s'.sent| && Reorg(Pred(floor)) in s'.sent[|s.sent|..]
            && (Pred(floor) < common <==> 0 < common && floor <= common)
            && (Indexed(h.(seen := e.chain), s') <==> UnchangedBelow(h, s.cursor, floor, e.chain))
  {
    var i, s2 := LeavesBelowStep(h, s, range, e, floor);
    ReportedAtFloor(h, s, range, e.chain, floor, i, s2, Step(s, range, PollOf(e)).0);
  }

  /** `s2` rewound below the floor and reported it; `s'` is `s2` after the scan. */
  ghost predicate RewoundToFloor(s: State, range: nat, c: seq<Header>, floor: nat, i: nat, s2: State, s': State) {
    && s2.cursor == Min(Pred(floor), s.cursor) && s2.scanned == s.scanned
    && |s.sent| <= i < |s2.sent| && s2.sent[i] == Reorg(Pred(floor))
    && c != [] && s' == if |c| - 1 == s2.cursor then s2 else Scan(s2, range, |c| - 1, Served(c))
  }

  lemma LeavesBelowStep(h: History, s: State, range: nat, e: Event, floor: nat) returns (i: nat, s2: State)
    requires LeavesBelow(h, s, e, floor)
    ensures RewoundToFloor(s, range, e.chain, floor, i, s2, Step(s, range, PollOf(e)).0)
  {
    var c, s1 := e.chain, HandleFinalized(s, e.chain[e.finalizedAt]);
    StepParts(s, range, e);
    LeavesBelowLatest(h, s, e, floor);
    i, s2 := |s1.sent|, HandleLatest(s1, c[e.finalizedAt], Last(c), Served(c), e.lookups).0;
  }

  lemma ReportedAtFloor(h: History, s: State, range: nat, c: seq<Header>, floor: nat, i: nat, s2: State, s': State)
    requires Indexed(h, s) && |c| <= U64_MAX && floor < |h.seen| <= U64_MAX
    requires RewoundToFloor(s, range, c, floor, i, s2, s')
    ensures |s.sent| <= |s'.sent| && Reorg(Pred(floor)) in s'.sent[|s.sent|..]
    ensures Indexed(h.(seen := c), s') <==> UnchangedBelow(h, s.cursor, floor, c)
  {
    ReportIsSent(s.sent, s2.sent, s'.sent, i, Reorg(Pred(floor)));
    IndexBelowFloor(h, s, range, c, floor, s2, s');
  }

  lemma ReportIsSent(before: seq<Notification>, handled: seq<Notification>, after: seq<Notification>, i: nat, n: Notification)
    requires |before| <= i < |handled| && handled[i] == n && handled <= after
    ensures n in after[|before|..]
  {
    assert after[|before|..][i - |before|] == n;
  }

  lemma IndexBelowFloor(h: History, s: State, range: nat, c: seq<Header>, floor: nat, s2: State, s': State)
    requires Indexed(h, s) && c != [] && |c| <= U64_MAX && floor < |h.seen| <= U64_MAX
    requires s2.cursor == Min(Pred(floor), s.cursor) && s2.scanned == s.scanned
    requires s' == if |c| - 1 == s2.cursor then s2 else Scan(s2, range, |c| - 1, Served(c))
    ensures Indexed(h.(seen := c), s') <==> UnchangedBelow(h, s.cursor, floor, c)
  {
    if UnchangedBelow(h, s.cursor, floor, c) {
      forall n | h.base < n <= s'.cursor
        ensures n in s'.scanned && n < |c| && s'.scanned[n] == c[n].hash
      {
        assert n <= s2.cursor ==> n in s.scanned;
      }
    }
    if Indexed(h.(seen := c), s') {
      forall n | h.base < n <= s.cursor && n < floor && n < |c|
        ensures h.seen[n].hash == c[n].hash
      {
        assert n in s.scanned && n in s'.scanned;
      }
    }
  }

  // ---- Finalized equals head ----

  /**
   Against an L1 whose finalized block is its head only one block is tracked, so replacing the
   head, or dropping to a lower one, always reports the old head minus one, however deep the fork is.
   */
  lemma FinalizedHeadReportsHeadMinusOne(s: State, tail: Header, latest: Header, blocks: map<nat, Header>, lookups: nat)
    requires s.tracked == [tail] && latest.number <= tail.number
    requires latest.hash != tail.hash && latest.parentHash != tail.hash
    ensures var s1 := HandleFinalized(s, latest);
            var r := HandleLatest(s1, latest, latest, blocks, lookups);
            && r.1.None? && r.0.tracked == [latest]
            && r.0.sent == s1.sent + [Reorg(Pred(tail.number)), NewBlock(BlockInfo(latest.number, latest.hash))]
            && r.0.cursor == Min(Pred(tail.number), s.cursor)
  {
    var s1 := HandleFinalized(s, latest);
    assert s1.tracked == [tail] && RPosition([tail], latest) == None;
    assert [tail][..0] + [latest] == [latest];
    AdoptMisaligned(s1, None, [latest], latest, [latest]);
  }

  /**
   The report of such a poll is a common block exactly when only the head was replaced, and the
   index is right exactly when no scanned block below the old head changed.
   */
  lemma FinalizedHeadIsRightExactly(h: History, s: State, range: nat, e: Event)
    requires e.Polled? && e.finalizedServed && e.latestServed && e.logsServed
    requires e.chain != [] && e.finalizedAt == |e.chain| - 1 && |e.chain| <= |h.seen| <= U64_MAX
    requires Linked(h.seen) && Linked(e.chain) && Collisionless(e.chain, e.chain) && Collisionless(h.seen, e.chain)
    requires s.tracked == [Last(h.seen)] && Indexed(h, s)
    requires Last(e.chain).hash != Last(h.seen).hash && Last(e.chain).parentHash != Last(h.seen).hash
    ensures var s', reported := Step(s, range, PollOf(e)).0, Pred(|h.seen| - 1);
            var common := CommonLength(h.seen, e.chain);
            && |s.sent| <= |s'.sent| && Reorg(reported) in s'.sent[|s.sent|..]
            && (reported < common <==> 0 < |h.seen| - 1 == common)
            && (Indexed(h.(seen := e.chain), s') <==> UnchangedBelow(h, s.cursor, |h.seen| - 1, e.chain))
  {
    var floor := |h.seen| - 1;
    assert s.tracked == h.seen[floor..];
    assert e.chain[|e.chain| - 1] !in s.tracked;
    ForkBelowBufferIsRightExactly(h, s, range, e, floor);
    OtherHeadForks(h.seen, e.chain);
  }

  /** Two chains with different heads, the new one no longer, share at most what is below the old head. */
  lemma OtherHeadForks(seen: seq<Header>, c: seq<Header>)
    requires c != [] && |c| <= |seen| && Last(c).hash != Last(seen).hash
    ensures CommonLength(seen, c) <= |seen| - 1
  {
    var m := CommonLength(seen, c);
    assert m > 0 ==> seen[m - 1] == seen[..m][m - 1] == c[..m][m - 1] == c[m - 1];
  }
}
