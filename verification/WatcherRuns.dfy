/**
 What the L1 watcher guarantees over whole runs of polls, resets and failed requests, and the
 exact conditions under which it stays silent about a fork.
 */
module L1WatcherRuns {
  import opened Primitives
  import opened Bounded
  import opened L1Watcher

  // ---- Chains ----

  /** A chain indexed by block number, from genesis, each block naming its parent. */
  ghost predicate Linked(c: seq<Header>) {
    && (forall i :: 0 <= i < |c| ==> c[i].number == i && c[i].hash != ZERO_HASH)
    && (forall i :: 0 < i < |c| ==> c[i].parentHash == c[i - 1].hash)
    && (c != [] ==> c[0].parentHash == ZERO_HASH)
  }

  /** Equal hashes belong to equal headers. */
  ghost predicate Collisionless(a: seq<Header>, b: seq<Header>) {
    forall i, j :: 0 <= i < |a| && 0 <= j < |b| && a[i].hash == b[j].hash ==> a[i] == b[j]
  }

  function Served(c: seq<Header>): map<nat, Header> {
    map n: nat | 0 <= n < |c| :: c[n]
  }

  /** How many leading blocks two chains share. */
  function CommonLength(a: seq<Header>, b: seq<Header>): (n: nat)
    ensures n <= |a| && n <= |b| && a[..n] == b[..n]
    ensures n < |a| && n < |b| ==> a[n] != b[n]
  {
    if a == [] || b == [] || a[0] != b[0] then 0
    else
      var n := CommonLength(a[1..], b[1..]);
      assert a[..n + 1] == [a[0]] + a[1..][..n] && b[..n + 1] == [b[0]] + b[1..][..n];
      n + 1
  }

  lemma CommonLengthIs(a: seq<Header>, b: seq<Header>, n: nat)
    requires n <= |a| && n <= |b| && a[..n] == b[..n]
    ensures n <= CommonLength(a, b)
    ensures (n < |a| && n < |b| ==> a[n] != b[n]) ==> n == CommonLength(a, b)
  {
    var m := CommonLength(a, b);
    assert forall i :: 0 <= i < n ==> a[i] == a[..n][i] == b[..n][i] == b[i];
    assert forall i :: 0 <= i < m ==> a[i] == a[..m][i] == b[..m][i] == b[i];
  }

  /** A shared hash means a shared history. */
  lemma {:induction false} SameAncestors(a: seq<Header>, b: seq<Header>, i: nat, j: nat)
    requires Linked(a) && Linked(b) && Collisionless(a, b)
    requires i < |a| && j < |b| && a[i].hash == b[j].hash
    ensures i == j && a[i] == b[i] && a[..i + 1] == b[..i + 1]
  {
    assert a[i] == b[j];
    if i > 0 {
      SameAncestors(a, b, i - 1, j - 1);
    }
    assert a[..i + 1] == a[..i] + [a[i]] && b[..i + 1] == b[..i] + [b[i]];
  }

  // ---- The walk ----

  /**
   A walk from `c[k]` that ended at `c[j]`: the highest tracked block at or below `c[k]`,
   or else the finalized block's child (the finalized block itself when the walk began there).
   */
  ghost predicate EndedAt(w: Walk, tracked: seq<Header>, c: seq<Header>, f: nat, j: nat, k: nat)
    requires f <= k < |c|
  {
    && f <= j <= k && (f < k ==> f < j)
    && w == Ended(RPosition(tracked, c[j]), c[j..k + 1])
    && (forall i :: j < i <= k ==> c[i] !in tracked)
    && (c[j] !in tracked ==> j <= f + 1)
  }

  lemma StopsAtFinalized(tracked: seq<Header>, c: seq<Header>, f: nat, k: nat)
    requires Linked(c) && Collisionless(c, c) && f <= k < |c|
    ensures Stops(tracked, c[f], c[k]) <==> c[k] in tracked || k <= f + 1
  {
    if k > 0 && c[k - 1].hash == c[f].hash {
      assert c[k - 1] == c[f];
    }
  }

  /**
   On a served chain that contains the finalized block the walk ends after at most
   `k - f` lookups with the slice of that chain above the block it stopped at.
   */
  lemma {:induction false} WalkShape(tracked: seq<Header>, c: seq<Header>, f: nat, k: nat, lookups: nat)
    returns (j: nat)
    requires Linked(c) && Collisionless(c, c) && f <= k < |c|
    ensures var w := WalkBack(tracked, c[f], c[k], Served(c), lookups);
            && (k - f <= lookups ==> w.Ended?)
            && (w.Ended? ==> EndedAt(w, tracked, c, f, j, k) && k - j <= lookups)
    decreases lookups
  {
    StopsAtFinalized(tracked, c, f, k);
    j := k;
    if Stops(tracked, c[f], c[k]) {
      assert c[k..k + 1] == [c[k]];
    } else if lookups > 0 {
      j := WalkShape(tracked, c, f, k - 1, lookups - 1);
      var w := WalkBack(tracked, c[f], c[k - 1], Served(c), lookups - 1);
      if w.Ended? {
        WalkExtends(tracked, c, f, j, k, w);
      }
    }
  }

  lemma WalkExtends(tracked: seq<Header>, c: seq<Header>, f: nat, j: nat, k: nat, w: Walk)
    requires f + 1 < k < |c| && EndedAt(w, tracked, c, f, j, k - 1) && c[k] !in tracked
    ensures EndedAt(Under(w, [c[k]]), tracked, c, f, j, k)
  {
    assert c[j..k] + [c[k]] == c[j..k + 1];
  }

  // ---- The watcher against the history of L1 ----

  /**
   `seen` is the chain of the last poll whose latest block was handled, `settled` the finalized
   blocks observed so far, and `base` the block the claims about scanning start after.
   */
  datatype History = History(seen: seq<Header>, settled: seq<Header>, base: nat)

  /** The tracked blocks are a suffix of the chain last seen, and everything below is finalized. */
  ghost predicate TracksAt(seen: seq<Header>, settled: seq<Header>, tracked: seq<Header>) {
    && Linked(seen) && Linked(settled)
    && (seen != [] ==> settled != [] && settled[0] == seen[0])
    && |tracked| <= |seen|
    && tracked == seen[|seen| - |tracked|..]
    && seen[..|seen| - |tracked|] <= settled
  }

  ghost predicate Tracks(h: History, s: State) {
    TracksAt(h.seen, h.settled, s.tracked)
  }

  /** The number of the first tracked block. */
  function Floor(h: History, s: State): nat
    requires |s.tracked| <= |h.seen|
  {
    |h.seen| - |s.tracked|
  }

  /** A poll's chain: it keeps every block ever finalized, and its unfinalized span fits the buffer. */
  ghost predicate Serves(h: History, c: seq<Header>, f: nat) {
    && Linked(c) && Collisionless(c, c) && Collisionless(h.seen, c)
    && f < |c| && |c| - 1 - f <= HEADER_CAPACITY
    && h.settled <= c
  }

  function Settle(h: History, c: seq<Header>, f: nat): History
    requires f < |c|
  {
    if |h.settled| <= f then h.(settled := c[..f + 1]) else h
  }

  lemma SettleServes(h: History, c: seq<Header>, f: nat)
    requires Linked(h.settled) && Serves(h, c, f)
    ensures var h' := Settle(h, c, f);
            && h' == h.(settled := h'.settled)
            && Linked(h'.settled) && Serves(h', c, f)
            && h.settled <= h'.settled && c[..f + 1] <= h'.settled
            && (h.settled != [] ==> h'.settled[0] == h.settled[0])
  {
  }

  /** Draining leaves the blocks above the finalized one, when that block is on the seen chain. */
  lemma Drained(h: History, s: State, c: seq<Header>, f: nat)
    requires Tracks(h, s) && Serves(h, c, f)
    ensures var s' := HandleFinalized(s, c[f]);
            || (s'.tracked == [] && |h.seen| <= f)
            || (s'.tracked == s.tracked && c[f] !in s.tracked && (s.tracked != [] ==> f < |h.seen|))
            || (f < |h.seen| && h.seen[..f + 1] == c[..f + 1] && s'.tracked == h.seen[f + 1..])
  {
    if s.tracked != [] && f < |h.seen| {
      assert s.tracked[|s.tracked| - 1] == h.seen[|h.seen| - 1];
      match Position(s.tracked, c[f].hash) {
        case None =>
        case Some(p) =>
          assert s.tracked[p] == h.seen[Floor(h, s) + p];
          SameAncestors(h.seen, c, Floor(h, s) + p, f);
      }
    }
  }

  lemma FinalizedKeepsTracking(h: History, s: State, c: seq<Header>, f: nat)
    requires Tracks(h, s) && Serves(h, c, f)
    requires |h.seen| <= f ==> h.seen <= c
    ensures var h', s' := Settle(h, c, f), HandleFinalized(s, c[f]);
            && Tracks(h', s') && Serves(h', c, f)
            && c[f] !in s'.tracked && c[..f + 1] <= h'.settled
            && (s'.tracked != [] ==> f < |h.seen|)
  {
    SettleServes(h, c, f);
    Drained(h, s, c, f);
    var h', s' := Settle(h, c, f), HandleFinalized(s, c[f]);
    if f < |h.seen| && s'.tracked == h.seen[f + 1..] {
      AboveIsNot(h.seen, f, c[f]);
    }
    DrainedTracks(h, s, c, f, h', s'.tracked, s');
  }

  lemma AboveIsNot(seen: seq<Header>, f: nat, x: Header)
    requires Linked(seen) && f < |seen| && x.number == f
    ensures x !in seen[f + 1..]
  {
  }

  lemma DrainedTracks(h: History, s: State, c: seq<Header>, f: nat, h': History, tracked: seq<Header>, s': State)
    requires Tracks(h, s) && f < |c| && h' == h.(settled := h'.settled) && s'.tracked == tracked
    requires Linked(h'.settled) && h.settled <= h'.settled && c[..f + 1] <= h'.settled
    requires |h.seen| <= f ==> h.seen <= c
    requires || (tracked == [] && |h.seen| <= f)
             || tracked == s.tracked
             || (f < |h.seen| && h.seen[..f + 1] == c[..f + 1] && tracked == h.seen[f + 1..])
    ensures Tracks(h', s')
  {
    var a := |h.seen| - |tracked|;
    if tracked == s.tracked {
      PrefixTrans(h.seen[..a], h.settled, h'.settled);
    } else if tracked == [] && |h.seen| <= f {
      PrefixTrans(h.seen[..a], c[..f + 1], h'.settled);
    }
  }

  lemma PrefixTrans<T>(a: seq<T>, b: seq<T>, c: seq<T>)
    requires a <= b <= c
    ensures a <= c
  {
  }

  // ---- Fork detection ----

  /** The state between the two halves of a poll: the finalized block has been handled. */
  ghost predicate Ready(h: History, s: State, c: seq<Header>, f: nat) {
    && Tracks(h, s) && Serves(h, c, f)
    && c[f] !in s.tracked && c[..f + 1] <= h.settled
    && (s.tracked != [] ==> f < |h.seen|)
  }

  function Last(c: seq<Header>): Header
    requires c != []
  {
    c[|c| - 1]
  }

  lemma TrackedBlocks(h: History, s: State)
    requires Tracks(h, s)
    ensures forall i :: Floor(h, s) <= i < |h.seen| ==> h.seen[i] in s.tracked
    ensures forall x :: x in s.tracked ==> x.number < |h.seen| && h.seen[x.number] == x && Floor(h, s) <= x.number
  {
    assert forall i :: Floor(h, s) <= i < |h.seen| ==> s.tracked[i - Floor(h, s)] == h.seen[i];
  }

  /** A tracked block that is on the new chain carries its whole history over. */
  lemma TrackedOnChain(h: History, s: State, c: seq<Header>, f: nat, j: nat)
    requires Ready(h, s, c, f) && f <= j < |c| && c[j] in s.tracked
    ensures f < Floor(h, s) <= j < |h.seen| && h.seen[..j + 1] == c[..j + 1]
  {
    TrackedBlocks(h, s);
    SameAncestors(h.seen, c, j, j);
    assert h.seen[f] == h.seen[..j + 1][f] == c[..j + 1][f] == c[f];
  }

  /** The zip of two chains that share exactly their blocks up to `j`. */
  lemma ZipSplit(seen: seq<Header>, c: seq<Header>, a: nat, j: nat)
    requires Linked(seen) && a <= j < |seen| && j < |c| && seen[..j + 1] == c[..j + 1]
    requires j + 1 < |seen| && j + 1 < |c| ==> seen[j + 1].hash != c[j + 1].hash
    ensures seen[a..][..j - a] + c[j..] == c[a..]
    ensures ReorgNumber(seen[a..], c[a..]) == if j + 1 < |seen| && j + 1 < |c| then Some(j) else None
  {
    assert forall i :: 0 <= i <= j ==> seen[i] == seen[..j + 1][i] == c[..j + 1][i] == c[i];
    var d := FirstDifference(seen[a..], c[a..]);
    if d.Some? {
      assert seen[a..][d.value] == seen[a + d.value] && c[a..][d.value] == c[a + d.value];
    }
    if j + 1 < |seen| && j + 1 < |c| {
      assert seen[a..][j + 1 - a] == seen[j + 1] && c[a..][j + 1 - a] == c[j + 1];
    }
  }

  lemma CombineOnSeen(seen: seq<Header>, c: seq<Header>, a: nat, j: nat)
    requires Linked(seen) && a <= j < |seen| && j < |c| && seen[..j + 1] == c[..j + 1] && |c| - a <= HEADER_CAPACITY
    requires j + 1 < |seen| && j + 1 < |c| ==> seen[j + 1].hash != c[j + 1].hash
    ensures var tracked := Combine(seen[a..], Some(j - a), c[j..]);
            && tracked == c[a..]
            && ReorgNumber(seen[a..], tracked) == if j + 1 < |seen| && j + 1 < |c| then Some(j) else None
  {
    ZipSplit(seen, c, a, j);
  }

  /** Where a block of a linked chain sits among the blocks from `a` up. */
  lemma PositionFrom(seen: seq<Header>, a: nat, j: nat)
    requires Linked(seen) && a <= j < |seen|
    ensures RPosition(seen[a..], seen[j]) == Some(j - a)
  {
    assert seen[a..][j - a] == seen[j];
    var p := RPosition(seen[a..], seen[j]);
    assert p.Some? && seen[a..][p.value] == seen[a + p.value];
  }

  lemma NextDiffers(seen: seq<Header>, c: seq<Header>, a: nat, j: nat)
    requires Collisionless(seen, c) && a <= j && j + 1 < |seen| && j + 1 < |c| && c[j + 1] !in seen[a..]
    ensures seen[j + 1] != c[j + 1] && seen[j + 1].hash != c[j + 1].hash
  {
    assert seen[a..][j + 1 - a] == seen[j + 1];
  }

  /** The same on the chains alone: `tracked` is the old chain from `a` up. */
  lemma MetOnChain(seen: seq<Header>, c: seq<Header>, tracked: seq<Header>, a: nat, j: nat)
    requires Linked(seen) && Collisionless(seen, c) && a <= j < |seen| && tracked == seen[a..]
    requires j < |c| && seen[..j + 1] == c[..j + 1] && |c| - a <= HEADER_CAPACITY
    requires j + 1 < |c| ==> c[j + 1] !in tracked
    ensures j + 1 < |seen| && j + 1 < |c| ==> seen[j + 1] != c[j + 1]
    ensures var adopted := Combine(tracked, RPosition(tracked, c[j]), c[j..]);
            && adopted == c[a..]
            && ReorgNumber(tracked, adopted) == if j + 1 < |seen| && j + 1 < |c| then Some(j) else None
  {
    assert seen[j] == seen[..j + 1][j] == c[..j + 1][j] == c[j];
    PositionFrom(seen, a, j);
    if j + 1 < |seen| && j + 1 < |c| {
      NextDiffers(seen, c, a, j);
    }
    CombineOnSeen(seen, c, a, j);
  }

  /** What the walk leads to when it met a tracked block. */
  lemma WalkMetTracked(h: History, s: State, c: seq<Header>, f: nat, j: nat)
    requires Ready(h, s, c, f) && f <= j < |c| && c[j] in s.tracked
    requires forall i :: j < i < |c| ==> c[i] !in s.tracked
    ensures f < Floor(h, s) <= j < |h.seen| && h.seen[..j + 1] == c[..j + 1]
    ensures var tracked := Combine(s.tracked, RPosition(s.tracked, c[j]), c[j..]);
            && tracked == c[Floor(h, s)..]
            && ReorgNumber(s.tracked, tracked) == if j + 1 < |h.seen| && j + 1 < |c| then Some(j) else None
    ensures j + 1 < |h.seen| && j + 1 < |c| ==> h.seen[j + 1] != c[j + 1]
  {
    TrackedOnChain(h, s, c, f, j);
    MetOnChain(h.seen, c, s.tracked, Floor(h, s), j);
  }

  /** Two chains that share exactly their blocks up to `j`. */
  lemma ForkAt(seen: seq<Header>, c: seq<Header>, j: nat)
    requires j < |seen| && j < |c| && seen[..j + 1] == c[..j + 1]
    requires j + 1 < |seen| && j + 1 < |c| ==> seen[j + 1] != c[j + 1]
    ensures CommonLength(seen, c) == j + 1
    ensures seen <= c <==> j + 1 == |seen|
    ensures c <= seen <==> j + 1 == |c|
  {
    CommonLengthIs(seen, c, j + 1);
    assert seen[..|seen|] == seen && c[..|c|] == c;
  }

  lemma CombineAbove(tracked: seq<Header>, chain: seq<Header>)
    requires chain != [] && |chain| <= HEADER_CAPACITY && (tracked != [] ==> tracked[0].hash != chain[0].hash)
    ensures Combine(tracked, None, chain) == chain
    ensures ReorgNumber(tracked, chain) == if tracked == [] then None else Some(Pred(tracked[0].number))
  {
    assert tracked[..0] + chain == chain;
  }

  /** The first tracked block of a linked chain that the new chain does not continue. */
  lemma FirstTracked(seen: seq<Header>, c: seq<Header>, a: nat, j: nat)
    requires Linked(seen) && Collisionless(seen, c) && a < |seen| && j < |c| && c[j] !in seen[a..]
    ensures seen[a..][0].number == a && seen[a..][0].hash != c[j].hash
  {
    assert seen[a..][0] == seen[a] && seen[a] in seen[a..];
  }

  /** What the walk leads to when it met no tracked block: it reached the finalized block's child. */
  lemma WalkMetFinalized(h: History, s: State, c: seq<Header>, f: nat, j: nat)
    requires Ready(h, s, c, f) && f <= j < |c| && j <= f + 1 && (f < |c| - 1 ==> f < j)
    requires c[j] !in s.tracked
    ensures var tracked := Combine(s.tracked, None, c[j..]);
            && tracked == c[j..] && c[..j] <= h.settled
            && ReorgNumber(s.tracked, tracked) == if s.tracked == [] then None else Some(Pred(Floor(h, s)))
  {
    if s.tracked != [] {
      FirstTracked(h.seen, c, Floor(h, s), j);
    }
    CombineAbove(s.tracked, c[j..]);
    assert c[..j] == c[..f + 1][..j];
    PrefixTrans(c[..j], c[..f + 1], h.settled);
  }

  lemma UntrackedFork(h: History, s: State, c: seq<Header>, f: nat)
    requires Ready(h, s, c, f)
    requires forall i :: f < i < |c| ==> c[i] !in s.tracked
    ensures h.seen <= c <==> s.tracked == []
  {
    if s.tracked == [] {
      assert h.seen[..|h.seen|] == h.seen;
    } else {
      TrackedBlocks(h, s);
      assert h.seen[|h.seen| - 1] in s.tracked;
    }
  }

  /** How far below the fork a walk that met no tracked block reports the reorg. */
  lemma FinalizedFork(h: History, s: State, c: seq<Header>, f: nat)
    requires Ready(h, s, c, f) && s.tracked != []
    requires forall i :: f < i < |c| ==> c[i] !in s.tracked
    ensures Pred(Floor(h, s)) < CommonLength(h.seen, c)
    ensures h.seen[f] == c[f] ==> CommonLength(h.seen, c) == Pred(Floor(h, s)) + 1
  {
    var a := Floor(h, s);
    SharedBelowFloor(h, s, c, f);
    TrackedBlocks(h, s);
    assert h.seen[a] in s.tracked;
    SplitAtFloor(h.seen, c, a);
    if h.seen[f] == c[f] {
      assert f < a;
    }
  }

  /** Everything below the tracked blocks is on the new chain. */
  lemma SharedBelowFloor(h: History, s: State, c: seq<Header>, f: nat)
    requires Ready(h, s, c, f) && s.tracked != []
    ensures Floor(h, s) <= |c| && h.seen[..Floor(h, s)] == c[..Floor(h, s)]
    ensures h.seen[0] == c[0]
  {
    var a := Floor(h, s);
    assert h.seen[..a] <= h.settled;
    assert c[0] == h.settled[0] == h.seen[0];
  }

  /** Chains that agree below `a` share the block before it, and no more if they differ at `a`. */
  lemma SplitAtFloor(older: seq<Header>, newer: seq<Header>, a: nat)
    requires a < |older| && a <= |newer| && older[..a] == newer[..a]
    requires newer != [] && older[0] == newer[0]
    ensures Pred(a) < CommonLength(older, newer)
    ensures 0 < a && (a < |newer| ==> older[a] != newer[a]) ==> CommonLength(older, newer) == Pred(a) + 1
  {
    CommonLengthIs(older, newer, a);
    if a == 0 {
      assert older[..1] == [older[0]] == newer[..1];
      CommonLengthIs(older, newer, 1);
    }
  }

  function ReorgNotes(reorg: Option<nat>): seq<Notification> {
    if reorg.Some? then [Reorg(reorg.value)] else []
  }

  function HeadNotes(s: State, latest: Header): seq<Notification> {
    if s.tracked != [] && Last(s.tracked).hash == latest.hash then []
    else [NewBlock(BlockInfo(latest.number, latest.hash))]
  }

  /**
   The right answer about a fork: silence when the new chain continues the old one or when the
   new head is itself a tracked block; otherwise a block both chains have, the highest one
   whenever the finalized block is on the old chain.
   */
  ghost predicate Verdict(h: History, s: State, c: seq<Header>, f: nat, reorg: Option<nat>)
    requires c != [] && f < |c|
  {
    && (reorg.Some? <==> !(h.seen <= c) && Last(c) !in s.tracked)
    && (reorg.None? ==> h.seen <= c || c <= h.seen)
    && (reorg.Some? ==> reorg.value < CommonLength(h.seen, c))
    && (reorg.Some? && f < |h.seen| && h.seen[f] == c[f] ==> reorg.value + 1 == CommonLength(h.seen, c))
  }

  /** What a handled latest block must have done about a fork. */
  ghost predicate Detects(h: History, s: State, c: seq<Header>, f: nat, s': State, reorg: Option<nat>)
    requires c != [] && f < |c|
  {
    && Verdict(h, s, c, f, reorg)
    && s'.sent == s.sent + ReorgNotes(reorg) + HeadNotes(s, Last(c))
    && s'.scanned == s.scanned
    && s'.cursor == if reorg.Some? then Min(reorg.value, s.cursor) else s.cursor
  }

  lemma SameHead(h: History, s: State, c: seq<Header>, f: nat)
    requires Ready(h, s, c, f) && s.tracked != [] && Last(s.tracked).hash == Last(c).hash
    ensures h.seen == c
  {
    assert Last(s.tracked) == Last(h.seen);
    SameAncestors(h.seen, c, |h.seen| - 1, |c| - 1);
    assert h.seen[..|h.seen|] == h.seen && c[..|c|] == c;
  }

  lemma NextHead(h: History, s: State, c: seq<Header>, f: nat)
    requires Ready(h, s, c, f) && s.tracked != [] && Last(s.tracked).hash == Last(c).parentHash
    ensures h.seen + [Last(c)] == c && f < Floor(h, s)
  {
    assert Last(s.tracked) == Last(h.seen) && Last(h.seen).hash == c[|c| - 2].hash;
    SameAncestors(h.seen, c, |h.seen| - 1, |c| - 2);
    assert h.seen[..|h.seen|] == h.seen && c == c[..|c| - 1] + [Last(c)];
    TrackedBlocks(h, s);
    assert h.seen[f] == c[f];
  }

  /** The head is the one already tracked: nothing happens. */
  lemma DetectSameHead(h: History, s: State, c: seq<Header>, f: nat, lookups: nat)
    requires Ready(h, s, c, f) && s.tracked != [] && Last(s.tracked).hash == Last(c).hash
    ensures var (s', e) := HandleLatest(s, c[f], Last(c), Served(c), lookups);
            e.None? && Tracks(h.(seen := c), s') && Detects(h, s, c, f, s', None)
  {
    SameHead(h, s, c, f);
    assert h.(seen := c) == h;
  }

  /** The tracked blocks of a chain that is extended by one are that chain's, and fit the buffer. */
  lemma Appended(seen: seq<Header>, c: seq<Header>, tracked: seq<Header>, a: nat)
    requires c != [] && a <= |seen| && tracked == seen[a..] && seen + [Last(c)] == c && |c| - a <= HEADER_CAPACITY
    ensures Newest(tracked + [Last(c)], HEADER_CAPACITY) == c[a..] && c[..a] == seen[..a] && seen <= c
  {
    assert tracked + [Last(c)] == c[a..];
  }

  /** The head is a child of the one tracked: it is appended and announced. */
  lemma DetectNextHead(h: History, s: State, c: seq<Header>, f: nat, lookups: nat)
    requires Ready(h, s, c, f) && s.tracked != []
    requires Last(s.tracked).hash != Last(c).hash && Last(s.tracked).hash == Last(c).parentHash
    ensures var (s', e) := HandleLatest(s, c[f], Last(c), Served(c), lookups);
            e.None? && Tracks(h.(seen := c), s') && Detects(h, s, c, f, s', None)
  {
    NextHead(h, s, c, f);
    Appended(h.seen, c, s.tracked, Floor(h, s));
    AdoptedTracks(h, c, Floor(h, s), HandleLatest(s, c[f], Last(c), Served(c), lookups).0);
  }

  lemma DetectByExtension(h: History, s: State, c: seq<Header>, f: nat, lookups: nat)
    requires Ready(h, s, c, f) && s.tracked != []
    requires Last(s.tracked).hash == Last(c).hash || Last(s.tracked).hash == Last(c).parentHash
    ensures var (s', e) := HandleLatest(s, c[f], Last(c), Served(c), lookups);
            e.None? && Tracks(h.(seen := c), s') && Detects(h, s, c, f, s', None)
  {
    if Last(s.tracked).hash == Last(c).hash {
      DetectSameHead(h, s, c, f, lookups);
    } else {
      DetectNextHead(h, s, c, f, lookups);
    }
  }

  lemma AdoptDetects(h: History, s: State, c: seq<Header>, f: nat, position: Option<nat>, chain: seq<Header>)
    requires c != [] && f < |c| && (position.Some? ==> position.value <= |s.tracked|)
    requires s.tracked != [] ==> Last(s.tracked).hash != Last(c).hash
    requires Verdict(h, s, c, f, ReorgNumber(s.tracked, Combine(s.tracked, position, chain)))
    ensures var reorg := ReorgNumber(s.tracked, Combine(s.tracked, position, chain));
            Detects(h, s, c, f, Adopt(s, position, chain, Last(c)), reorg)
  {
  }

  /** The verdict when the two chains share exactly their blocks up to the tracked block `c[j]`. */
  lemma TrackedVerdict(h: History, s: State, c: seq<Header>, f: nat, j: nat)
    requires Tracks(h, s) && f < j < |h.seen| && j < |c| && h.seen[..j + 1] == c[..j + 1] && c[j] in s.tracked
    requires j + 1 < |h.seen| && j + 1 < |c| ==> h.seen[j + 1] != c[j + 1]
    requires forall i :: j < i < |c| ==> c[i] !in s.tracked
    ensures Verdict(h, s, c, f, if j + 1 < |h.seen| && j + 1 < |c| then Some(j) else None)
  {
    ForkAt(h.seen, c, j);
    assert j + 1 == |c| <==> Last(c) in s.tracked;
  }

  lemma AdoptTracked(h: History, s: State, c: seq<Header>, f: nat, j: nat)
    requires Ready(h, s, c, f) && f <= j < |c| && c[j] in s.tracked
    requires forall i :: j < i < |c| ==> c[i] !in s.tracked
    ensures var tracked := Combine(s.tracked, RPosition(s.tracked, c[j]), c[j..]);
            && Verdict(h, s, c, f, ReorgNumber(s.tracked, tracked))
            && tracked == c[Floor(h, s)..] && Floor(h, s) <= |c| && c[..Floor(h, s)] <= h.settled
  {
    WalkMetTracked(h, s, c, f, j);
    TrackedVerdict(h, s, c, f, j);
    FloorIsSettled(h, s, c, j);
  }

  lemma FloorIsSettled(h: History, s: State, c: seq<Header>, j: nat)
    requires Tracks(h, s) && Floor(h, s) <= j < |h.seen| && j < |c| && h.seen[..j + 1] == c[..j + 1]
    ensures c[..Floor(h, s)] <= h.settled
  {
    SamePrefix(h.seen, c, Floor(h, s), j + 1);
  }

  lemma SamePrefix<T>(a: seq<T>, b: seq<T>, m: nat, n: nat)
    requires m <= n <= |a| && n <= |b| && a[..n] == b[..n]
    ensures a[..m] == b[..m]
  {
    assert a[..m] == a[..n][..m] && b[..m] == b[..n][..m];
  }

  lemma AdoptFinalized(h: History, s: State, c: seq<Header>, f: nat, j: nat)
    requires Ready(h, s, c, f) && f <= j < |c| && j <= f + 1 && (f < |c| - 1 ==> f < j)
    requires forall i :: j <= i < |c| ==> c[i] !in s.tracked
    ensures Verdict(h, s, c, f, if s.tracked == [] then None else Some(Pred(Floor(h, s))))
  {
    assert forall i :: f < i < |c| ==> c[i] !in s.tracked;
    UntrackedFork(h, s, c, f);
    if s.tracked != [] {
      FinalizedFork(h, s, c, f);
    }
  }

  lemma AdoptedTracks(h: History, c: seq<Header>, j: nat, s': State)
    requires Linked(c) && Linked(h.settled) && h.settled <= c && h.settled != []
    requires j <= |c| && s'.tracked == c[j..] && c[..j] <= h.settled
    ensures Tracks(h.(seen := c), s')
  {
  }

  lemma WalkAdopts(h: History, s: State, c: seq<Header>, f: nat, j: nat) returns (reorg: Option<nat>)
    requires Ready(h, s, c, f) && f <= j < |c| && (f < |c| - 1 ==> f < j)
    requires c[j] !in s.tracked ==> j <= f + 1
    requires forall i :: j < i < |c| ==> c[i] !in s.tracked
    requires s.tracked != [] ==> Last(s.tracked).hash != Last(c).hash
    ensures var s' := Adopt(s, RPosition(s.tracked, c[j]), c[j..], Last(c));
            Tracks(h.(seen := c), s') && Detects(h, s, c, f, s', reorg)
  {
    var p := RPosition(s.tracked, c[j]);
    var floor := if c[j] in s.tracked then Floor(h, s) else j;
    if c[j] in s.tracked {
      AdoptTracked(h, s, c, f, j);
    } else {
      WalkMetFinalized(h, s, c, f, j);
      AdoptFinalized(h, s, c, f, j);
    }
    AdoptedTracks(h, c, floor, Adopt(s, p, c[j..], Last(c)));
    AdoptDetects(h, s, c, f, p, c[j..]);
    reorg := ReorgNumber(s.tracked, Combine(s.tracked, p, c[j..]));
  }

  /** A walk from the head of a served chain adopts that chain from its stopping block on. */
  lemma LatestByWalk(s: State, c: seq<Header>, f: nat, lookups: nat) returns (j: nat)
    requires Linked(c) && Collisionless(c, c) && f < |c|
    requires s.tracked != [] ==> Last(s.tracked).hash != Last(c).hash && Last(s.tracked).hash != Last(c).parentHash
    ensures f <= j < |c| && (f < |c| - 1 ==> f < j)
    ensures var r := HandleLatest(s, c[f], Last(c), Served(c), lookups);
            && (|c| - 1 - f <= lookups ==> r.1.None?)
            && (r.1.Some? ==> r.0 == s)
            && (r.1.None? ==>
                  && r.0 == Adopt(s, RPosition(s.tracked, c[j]), c[j..], Last(c))
                  && (c[j] !in s.tracked ==> j <= f + 1)
                  && forall i :: j < i < |c| ==> c[i] !in s.tracked)
  {
    j := WalkFromHead(s.tracked, c, f, lookups);
    LatestIsWalk(s, c[f], Last(c), Served(c), lookups, WalkBack(s.tracked, c[f], Last(c), Served(c), lookups));
  }

  lemma WalkFromHead(tracked: seq<Header>, c: seq<Header>, f: nat, lookups: nat) returns (j: nat)
    requires Linked(c) && Collisionless(c, c) && f < |c|
    ensures f <= j < |c| && (f < |c| - 1 ==> f < j)
    ensures var w := WalkBack(tracked, c[f], Last(c), Served(c), lookups);
            && (|c| - 1 - f <= lookups ==> w.Ended?)
            && (w.Ended? ==>
                  && w == Ended(RPosition(tracked, c[j]), c[j..])
                  && (c[j] !in tracked ==> j <= f + 1)
                  && forall i :: j < i < |c| ==> c[i] !in tracked)
  {
    var k := WalkShape(tracked, c, f, |c| - 1, lookups);
    var w := WalkBack(tracked, c[f], Last(c), Served(c), lookups);
    j := |c| - 1;
    if w.Ended? {
      j := k;
      EndedBelowHead(w, tracked, c, f, j);
    }
  }

  lemma EndedBelowHead(w: Walk, tracked: seq<Header>, c: seq<Header>, f: nat, j: nat)
    requires f < |c| && EndedAt(w, tracked, c, f, j, |c| - 1)
    ensures f <= j < |c| && (f < |c| - 1 ==> f < j)
    ensures w == Ended(RPosition(tracked, c[j]), c[j..])
    ensures c[j] !in tracked ==> j <= f + 1
    ensures forall i :: j < i < |c| ==> c[i] !in tracked
  {
    assert c[j..|c|] == c[j..];
  }

  lemma LatestIsWalk(s: State, f: Header, latest: Header, blocks: map<nat, Header>, lookups: nat, w: Walk)
    requires s.tracked != [] ==> Last(s.tracked).hash != latest.hash && Last(s.tracked).hash != latest.parentHash
    requires w == WalkBack(s.tracked, f, latest, blocks, lookups)
    ensures var r := HandleLatest(s, f, latest, blocks, lookups);
            match w
            case Failed(error) => r == (s, Some(error))
            case Ended(position, chain) =>
              (position.Some? ==> position.value <= |s.tracked|) && r == (Adopt(s, position, chain, latest), None)
  {
  }

  lemma DetectByWalk(h: History, s: State, c: seq<Header>, f: nat, lookups: nat) returns (reorg: Option<nat>)
    requires Ready(h, s, c, f)
    requires s.tracked != [] ==> Last(s.tracked).hash != Last(c).hash && Last(s.tracked).hash != Last(c).parentHash
    ensures var r := HandleLatest(s, c[f], Last(c), Served(c), lookups);
            && (|c| - 1 - f <= lookups ==> r.1.None?)
            && (r.1.Some? ==> r.0 == s)
            && (r.1.None? ==> Tracks(h.(seen := c), r.0) && Detects(h, s, c, f, r.0, reorg))
  {
    reorg := None;
    var j := LatestByWalk(s, c, f, lookups);
    if HandleLatest(s, c[f], Last(c), Served(c), lookups).1.None? {
      reorg := WalkAdopts(h, s, c, f, j);
    }
  }

  /**
   Fork detection: a poll whose requests are answered reports `Reorg(n)` exactly when the new
   chain does not continue the old one and the new head is not itself a tracked block. `n` is a
   common block, the highest one when the finalized block is on the old chain, and the cursor
   ends at or below it. A failed walk changes nothing after the finalized block was handled.
   */
  lemma ForkDetection(h: History, s: State, c: seq<Header>, f: nat, lookups: nat) returns (reorg: Option<nat>)
    requires Tracks(h, s) && Serves(h, c, f)
    requires |h.seen| <= f ==> h.seen <= c
    ensures var s1 := HandleFinalized(s, c[f]);
            var r := HandleLatest(s1, c[f], Last(c), Served(c), lookups);
            && Tracks(Settle(h, c, f), s1)
            && (|c| - 1 - f <= lookups ==> r.1.None?)
            && (r.1.Some? ==> r.0 == s1)
            && (r.1.None? ==> Tracks(Settle(h, c, f).(seen := c), r.0) && Detects(h, s1, c, f, r.0, reorg))
  {
    FinalizedKeepsTracking(h, s, c, f);
    var h1, s1 := Settle(h, c, f), HandleFinalized(s, c[f]);
    if s1.tracked != [] && (Last(s1.tracked).hash == Last(c).hash || Last(s1.tracked).hash == Last(c).parentHash) {
      DetectByExtension(h1, s1, c, f, lookups);
      reorg := None;
    } else {
      reorg := DetectByWalk(h1, s1, c, f, lookups);
    }
  }

  // ---- Whole runs ----

  /** A poll with one served chain, any of whose requests may fail, or an operator's reset. */
  datatype Event =
    | Polled(chain: seq<Header>, finalizedAt: nat, finalizedServed: bool, latestServed: bool, lookups: nat, logsServed: bool)
    | ResetTo(block: nat)

  function PollOf(e: Event): Poll
    requires e.Polled? && e.finalizedAt < |e.chain|
  {
    Poll(if e.finalizedServed then Some(e.chain[e.finalizedAt]) else None,
         if e.latestServed then Some(Last(e.chain)) else None,
         Served(e.chain), e.lookups, e.logsServed)
  }

  /**
   What L1 must keep: finalized blocks never change, the finalized tag passes the chain last seen
   only by extending it, the unfinalized span fits the buffer, and a poll that shows the head
   fallen back to an ancestor gets its logs.
   */
  ghost predicate Admissible(h: History, e: Event) {
    e.Polled? ==>
      && Serves(h, e.chain, e.finalizedAt)
      && (|h.seen| <= e.finalizedAt ==> h.seen <= e.chain)
      && (e.chain < h.seen ==> e.logsServed)
  }

  ghost function After(h: History, s: State, range: nat, e: Event): (History, State)
    requires Admissible(h, e)
  {
    match e
    case ResetTo(b) => (if b <= s.cursor then h else h.(base := b), s.(cursor := b))
    case Polled(c, f, finalizedServed, latestServed, lookups, _) =>
      var s' := Step(s, range, PollOf(e)).0;
      if !finalizedServed then (h, s')
      else if latestServed && HandleLatest(HandleFinalized(s, c[f]), c[f], Last(c), Served(c), lookups).1.None?
      then (Settle(h, c, f).(seen := c), s')
      else (Settle(h, c, f), s')
  }

  /** Every block in `(base, cursor]` was last scanned under the hash it has on the chain seen. */
  ghost predicate IndexedAt(seen: seq<Header>, base: nat, scanned: map<nat, Hash>, cursor: nat) {
    forall n :: base < n <= cursor ==> n in scanned && n < |seen| && scanned[n] == seen[n].hash
  }

  ghost predicate Indexed(h: History, s: State) {
    IndexedAt(h.seen, h.base, s.scanned, s.cursor)
  }

  ghost predicate IndexedWithin(c: seq<Header>, base: nat, s: State) {
    forall n :: base < n <= s.cursor && n < |c| ==> n in s.scanned && s.scanned[n] == c[n].hash
  }

  lemma DetectionKeepsIndex(h: History, s1: State, c: seq<Header>, f: nat, s2: State, reorg: Option<nat>)
    requires f < |c| && Detects(h, s1, c, f, s2, reorg) && Indexed(h, s1)
    ensures IndexedWithin(c, h.base, s2)
    ensures h.base < s2.cursor && !(c < h.seen) ==> s2.cursor < |c|
  {
    var m := CommonLength(h.seen, c);
    assert forall n :: 0 <= n < m ==> h.seen[n] == h.seen[..m][n] == c[..m][n] == c[n];
    assert h.base < s1.cursor ==> s1.cursor in s1.scanned;
  }

  lemma ScanKeepsIndex(c: seq<Header>, base: nat, s: State, range: nat, settled: seq<Header>)
    requires c != [] && IndexedWithin(c, base, s)
    ensures Indexed(History(c, settled, base), Scan(s, range, |c| - 1, Served(c)))
  {
    var s' := Scan(s, range, |c| - 1, Served(c));
  }

  lemma StepParts(s: State, range: nat, e: Event)
    requires e.Polled? && e.finalizedAt < |e.chain| && e.chain[|e.chain| - 1].number == |e.chain| - 1
    ensures var c, f := e.chain, e.finalizedAt;
            var s1 := HandleFinalized(s, c[f]);
            var r := HandleLatest(s1, c[f], Last(c), Served(c), e.lookups);
            Step(s, range, PollOf(e)).0 ==
            if !e.finalizedServed then s
            else if !e.latestServed then s1
            else if r.1.Some? || |c| - 1 == r.0.cursor || !e.logsServed then r.0
            else Scan(r.0, range, |c| - 1, Served(c))
  {
  }

  lemma HandledKeepsIndex(h: History, c: seq<Header>, range: nat, logsServed: bool, s2: State)
    requires c != [] && IndexedWithin(c, h.base, s2)
    requires !logsServed && h.base < s2.cursor ==> s2.cursor < |c|
    ensures var s' := if |c| - 1 == s2.cursor || !logsServed then s2 else Scan(s2, range, |c| - 1, Served(c));
            Indexed(h.(seen := c), s')
  {
    if |c| - 1 == s2.cursor || !logsServed {
      WithinIsIndexed(h, c, s2);
    } else {
      ScanKeepsIndex(c, h.base, s2, range, h.settled);
    }
  }

  lemma WithinIsIndexed(h: History, c: seq<Header>, s: State)
    requires IndexedWithin(c, h.base, s) && (h.base < s.cursor ==> s.cursor < |c|)
    ensures Indexed(h.(seen := c), s)
  {
  }

  /** What `After` is, given what the two halves of the poll did. */
  lemma AfterParts(h: History, s: State, range: nat, e: Event, s1: State, r: (State, Option<WatcherError>))
    requires e.Polled? && Admissible(h, e)
    requires s1 == HandleFinalized(s, e.chain[e.finalizedAt])
    requires r == HandleLatest(s1, e.chain[e.finalizedAt], Last(e.chain), Served(e.chain), e.lookups)
    ensures var h1 := Settle(h, e.chain, e.finalizedAt);
            After(h, s, range, e) ==
            if !e.finalizedServed then (h, s)
            else if !e.latestServed then (h1, s1)
            else if r.1.Some? then (h1, r.0)
            else (h1.(seen := e.chain),
                  if |e.chain| - 1 == r.0.cursor || !e.logsServed then r.0
                  else Scan(r.0, range, |e.chain| - 1, Served(e.chain)))
  {
    StepParts(s, range, e);
  }

  ghost predicate Agrees(h: History, s: State) {
    Tracks(h, s) && Indexed(h, s)
  }

  lemma HandledPoll(h: History, s1: State, s2: State, range: nat, e: Event, reorg: Option<nat>)
    requires e.Polled? && e.finalizedAt < |e.chain| && (e.chain < h.seen ==> e.logsServed)
    requires Tracks(Settle(h, e.chain, e.finalizedAt).(seen := e.chain), s2)
    requires Detects(h, s1, e.chain, e.finalizedAt, s2, reorg) && Indexed(h, s1)
    ensures Agrees(Settle(h, e.chain, e.finalizedAt).(seen := e.chain),
                   if |e.chain| - 1 == s2.cursor || !e.logsServed then s2
                   else Scan(s2, range, |e.chain| - 1, Served(e.chain)))
  {
    DetectionKeepsIndex(h, s1, e.chain, e.finalizedAt, s2, reorg);
    HandledKeepsIndex(h, e.chain, range, e.logsServed, s2);
    var s' := if |e.chain| - 1 == s2.cursor || !e.logsServed then s2
              else Scan(s2, range, |e.chain| - 1, Served(e.chain));
    SameAgrees(h.(seen := e.chain), Settle(h, e.chain, e.finalizedAt).(seen := e.chain), s2, s');
  }

  lemma SameAgrees(h: History, h': History, s: State, s': State)
    requires Tracks(h', s) && Indexed(h, s') && s'.tracked == s.tracked
    requires h'.seen == h.seen && h'.base == h.base
    ensures Agrees(h', s')
  {
  }

  lemma PollKeepsAgreement(h: History, s: State, range: nat, e: Event)
    requires e.Polled? && Admissible(h, e) && Agrees(h, s)
    ensures Agrees(After(h, s, range, e).0, After(h, s, range, e).1)
  {
    var c, f := e.chain, e.finalizedAt;
    var s1 := HandleFinalized(s, c[f]);
    var r := HandleLatest(s1, c[f], Last(c), Served(c), e.lookups);
    AfterParts(h, s, range, e, s1, r);
    var reorg := ForkDetection(h, s, c, f, e.lookups);
    IndexedSame(h, s, h, s1);
    IndexedSame(h, s, Settle(h, c, f), s1);
    if r.1.None? {
      HandledPoll(h, s1, r.0, range, e, reorg);
    }
  }

  lemma IndexedSame(h: History, s: State, h': History, s': State)
    requires Indexed(h, s)
    requires h'.seen == h.seen && h'.base == h.base && s'.scanned == s.scanned && s'.cursor <= s.cursor
    ensures Indexed(h', s')
  {
    forall n | h'.base < n <= s'.cursor
      ensures n in s'.scanned && n < |h'.seen| && s'.scanned[n] == h'.seen[n].hash
    {
      assert n in s.scanned;
    }
  }

  lemma ResetKeepsAgreement(h: History, s: State, range: nat, b: nat)
    requires Agrees(h, s)
    ensures Agrees(After(h, s, range, ResetTo(b)).0, After(h, s, range, ResetTo(b)).1)
  {
    if b <= s.cursor {
      IndexedSame(h, s, h, s.(cursor := b));
    }
  }

  ghost predicate AdmissibleRun(h: History, s: State, range: nat, events: seq<Event>)
    decreases |events|
  {
    events == [] ||
    (Admissible(h, events[0]) &&
     var (h', s') := After(h, s, range, events[0]); AdmissibleRun(h', s', range, events[1..]))
  }

  ghost function AfterAll(h: History, s: State, range: nat, events: seq<Event>): (History, State)
    requires AdmissibleRun(h, s, range, events)
    decreases |events|
  {
    if events == [] then (h, s)
    else var (h', s') := After(h, s, range, events[0]); AfterAll(h', s', range, events[1..])
  }

  /**
   Index agreement over whole runs: after any sequence of polls, failed requests and resets,
   every block number between the base and the cursor was last scanned under the hash it has on
   the chain the watcher tracks: no gap and no stale fork.
   */
  lemma {:induction false} IndexAgreement(h: History, s: State, range: nat, events: seq<Event>)
    requires AdmissibleRun(h, s, range, events) && Agrees(h, s)
    ensures var r := AfterAll(h, s, range, events); Agrees(r.0, r.1)
    decreases |events|
  {
    if events != [] {
      var r := After(h, s, range, events[0]);
      match events[0] {
        case Polled(_, _, _, _, _, _) => PollKeepsAgreement(h, s, range, events[0]);
        case ResetTo(b) => ResetKeepsAgreement(h, s, range, b);
      }
      IndexAgreement(r.0, r.1, range, events[1..]);
    }
  }

  /** The spawned watcher starts in agreement with an empty history. */
  lemma SpawnedAgrees(head: nat, finalized: nat, startBlock: nat)
    ensures var s := State([], head, finalized, Pred(startBlock), map[], []);
            var h := History([], [], Pred(startBlock));
            Agrees(h, s)
  {
  }

  // ---- What one poll did ----

  /** What a poll did: nothing, finality only, or everything down to the detection of a fork and the scan. */
  ghost predicate Did(h: History, s: State, range: nat, e: Event, h': History, s': State, handled: bool, s2: State, reorg: Option<nat>)
    requires e.Polled? && e.finalizedAt < |e.chain|
  {
    var c, s1 := e.chain, HandleFinalized(s, e.chain[e.finalizedAt]);
    && h'.base == h.base
    && (!e.finalizedServed ==> !handled)
    && (!handled ==> h'.seen == h.seen && s' == if e.finalizedServed then s1 else s)
    && (handled ==>
          && Detects(h, s1, c, e.finalizedAt, s2, reorg) && h'.seen == c
          && s' == if |c| - 1 == s2.cursor || !e.logsServed then s2 else Scan(s2, range, |c| - 1, Served(c)))
    && (e.finalizedServed && e.latestServed && |c| - 1 - e.finalizedAt <= e.lookups ==> handled)
  }

  lemma PollDid(h: History, s: State, range: nat, e: Event) returns (handled: bool, s2: State, reorg: Option<nat>)
    requires e.Polled? && Admissible(h, e) && Tracks(h, s)
    ensures var (h', s') := After(h, s, range, e); Did(h, s, range, e, h', s', handled, s2, reorg)
  {
    var c, f := e.chain, e.finalizedAt;
    var s1 := HandleFinalized(s, c[f]);
    var r := HandleLatest(s1, c[f], Last(c), Served(c), e.lookups);
    AfterParts(h, s, range, e, s1, r);
    reorg := ForkDetection(h, s, c, f, e.lookups);
    handled, s2 := e.finalizedServed && e.latestServed && r.1.None?, r.0;
  }

  function NewNotes(s: State, s': State): seq<Notification> {
    if |s.sent| <= |s'.sent| then s'.sent[|s.sent|..] else []
  }
}
