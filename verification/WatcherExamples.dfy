/** The watcher's limits at concrete chains: each guarantee is seen to fail where its condition says. */
module L1WatcherExamples {
  import opened Primitives
  import opened L1Watcher
  import opened L1WatcherRuns
  import opened L1WatcherLimits
  import L1Ingestion
  import MessageQueue

  const NO_FORK: nat := 1_000

  function HashAt(n: nat, fork: nat): Hash {
    if n < fork then n + 1 else n + 1_001
  }

  /** Block `n` of a chain whose blocks from `fork` up carry hashes of their own. */
  function BlockAt(n: nat, fork: nat): Header {
    Header(HashAt(n, fork), n, if n == 0 then ZERO_HASH else HashAt(n - 1, fork))
  }

  function ChainTo(head: nat, fork: nat): seq<Header> {
    seq(head + 1, n requires 0 <= n < head + 1 => BlockAt(n, fork))
  }

  lemma ChainsAreLinked(head: nat, head': nat, fork: nat)
    requires head < NO_FORK && head' < NO_FORK
    ensures Linked(ChainTo(head', fork)) && Collisionless(ChainTo(head', fork), ChainTo(head', fork))
    ensures Collisionless(ChainTo(head, NO_FORK), ChainTo(head', fork))
  {
  }

  /** The main chain up to `head` was seen, genesis is settled, and everything above it was scanned. */
  function HistoryTo(head: nat): History {
    History(ChainTo(head, NO_FORK), ChainTo(head, NO_FORK)[..1], 0)
  }

  /** The watcher tracks the main chain from `floor` up to `head`. */
  function StateTo(head: nat, floor: nat): State
    requires floor <= head
  {
    State(ChainTo(head, NO_FORK)[floor..], head, 0, head,
          map n: nat | 1 <= n <= head :: HashAt(n, NO_FORK), [])
  }

  lemma StartAgrees(head: nat, floor: nat)
    requires floor <= head < NO_FORK
    ensures Indexed(HistoryTo(head), StateTo(head, floor))
    ensures floor == 1 ==> Agrees(HistoryTo(head), StateTo(head, floor))
  {
    ChainsAreLinked(head, head, NO_FORK);
  }

  /** Blocks 0 to 2 were seen; the tag finalizes block 3 of a chain that left the old one at block 2. */
  lemma PastTailExample(range: nat)
    ensures var e := Polled(ChainTo(4, 2), 3, true, true, 1, true);
            var s' := Step(StateTo(2, 1), range, PollOf(e)).0;
            && Serves(HistoryTo(2), e.chain, 3) && Quiet([], s'.sent)
            && !Indexed(HistoryTo(2).(seen := e.chain), s')
  {
    var e, h, s := Polled(ChainTo(4, 2), 3, true, true, 1, true), HistoryTo(2), StateTo(2, 1);
    StartAgrees(2, 1);
    MainServes(2, 4, 2, 3);
    BlockTwoChanged();
    PastTailIsSilent(h, s, range, e);
  }

  lemma BlockTwoChanged()
    ensures !ScannedUnchanged(HistoryTo(2), 2, ChainTo(4, 2))
  {
    assert HistoryTo(2).seen[2].hash != ChainTo(4, 2)[2].hash;
  }

  /** A chain that leaves the main one above genesis serves the history of the main one. */
  lemma MainServes(head: nat, head': nat, fork: nat, f: nat)
    requires head < NO_FORK && f <= head' < NO_FORK && 1 <= fork && head' - f <= HEADER_CAPACITY
    ensures Serves(HistoryTo(head), ChainTo(head', fork), f)
  {
    ChainsAreLinked(head, head', fork);
    assert HistoryTo(head).settled == ChainTo(head', fork)[..1];
  }

  /** Blocks 0 to 3 were seen and scanned; the head falls back to block 2 and the logs do not arrive. */
  lemma LoweredHeadExample(range: nat)
    ensures var e := Polled(ChainTo(2, NO_FORK), 0, true, true, 2, false);
            var s' := Step(StateTo(3, 1), range, PollOf(e)).0;
            && Serves(HistoryTo(3), e.chain, 0) && Quiet([], s'.sent)
            && !Indexed(HistoryTo(3).(seen := e.chain), s')
  {
    var e, h, s := Polled(ChainTo(2, NO_FORK), 0, true, true, 2, false), HistoryTo(3), StateTo(3, 1);
    StartAgrees(3, 1);
    MainServes(3, 2, NO_FORK, 0);
    GenesisLeavesTracked(3);
    assert s.tracked[1] == Last(e.chain);
    LoweredHeadIsSilent(h, s, range, e);
  }

  /** Finalizing genesis drains nothing from a tail that starts above it. */
  lemma GenesisLeavesTracked(head: nat)
    requires 1 <= head < NO_FORK
    ensures HandleFinalized(StateTo(head, 1), BlockAt(0, NO_FORK)).tracked == StateTo(head, 1).tracked
  {
    var tracked := StateTo(head, 1).tracked;
    assert forall i :: 0 <= i < |tracked| ==> tracked[i] == BlockAt(i + 1, NO_FORK);
  }

  /** The finalized block is on another fork than the chain served from genesis: the walk never ends. */
  lemma EndlessWalkExample()
    ensures RunsForever([], BlockAt(1, 1), BlockAt(2, NO_FORK), Served(ChainTo(2, NO_FORK)))
  {
    var c := ChainTo(2, NO_FORK);
    ChainsAreLinked(2, 2, NO_FORK);
    NeverStopsOffChain([], BlockAt(1, 1), c);
    WalkNeverEnds([], BlockAt(1, 1), Last(c), Served(c));
  }

  /**
   Finalized equals head, and blocks 2 and 3 are replaced: the report is block 2, which the two
   chains do not share, and the old block 2 stays in the index.
   */
  lemma FinalizedHeadExample(range: nat)
    ensures var e := Polled(ChainTo(3, 2), 3, true, true, 0, true);
            var s' := Step(StateTo(3, 3), range, PollOf(e)).0;
            && Reorg(2) in s'.sent && CommonLength(HistoryTo(3).seen, e.chain) == 2
            && !Indexed(HistoryTo(3).(seen := e.chain), s')
  {
    var e, h, s := Polled(ChainTo(3, 2), 3, true, true, 0, true), HistoryTo(3), StateTo(3, 3);
    StartAgrees(3, 3);
    ChainsAreLinked(3, 3, NO_FORK);
    ChainsAreLinked(3, 3, 2);
    assert s.tracked == [Last(h.seen)];
    FinalizedHeadIsRightExactly(h, s, range, e);
    CommonLengthIs(h.seen, e.chain, 2);
    assert h.seen[2].hash != e.chain[2].hash;
  }

  /**
   Blocks 1 and 2 are tracked and the chain goes on to block 300: a reorg to block 0 is reported,
   although nothing was replaced.
   */
  lemma OverflowExample()
    ensures var s, c := StateTo(2, 1), ChainTo(300, NO_FORK);
            var (r, error) := HandleLatest(s, c[0], Last(c), Served(c), 300);
            && HistoryTo(2).seen <= c && error.None?
            && r.sent == [Reorg(0), NewBlock(BlockInfo(300, HashAt(300, NO_FORK)))]
  {
    var h, s, c := HistoryTo(2), StateTo(2, 1), ChainTo(300, NO_FORK);
    ChainsAreLinked(2, 2, NO_FORK);
    ChainsAreLinked(2, 300, NO_FORK);
    assert h.seen == c[..3];
    ContinuationReportsExactlyOnOverflow(h, s, c, 0, 1, 300);
  }

  // ---- A message that outlives its block ----

  /** The main chain holds one message, in block 3. */
  const ONE_MESSAGE := L1Ingestion.L1Data(
    (h: Hash) => if h == HashAt(3, NO_FORK) then [MessageQueue.Message(0, 77)] else [],
    (a: Hash, b: Hash) => a + b + 1, 0)

  lemma OneMessageIsOrderly(head: nat)
    requires head <= 3
    ensures L1Ingestion.Orderly(ONE_MESSAGE, ChainTo(head, NO_FORK), 0)
  {
    var c := ChainTo(head, NO_FORK);
    forall n | 0 < n < |c|
      ensures L1Ingestion.OrderlyAt(ONE_MESSAGE, c, 0, n)
    {
      NoMessageBelow(c, n - 1);
    }
  }

  lemma {:induction false} NoMessageBelow(c: seq<Header>, n: nat)
    requires n < |c| <= 4 && n < 3 && c == ChainTo(|c| - 1, NO_FORK)
    ensures L1Ingestion.QueueTo(ONE_MESSAGE, c, n) == []
    decreases n
  {
    if n > 0 {
      NoMessageBelow(c, n - 1);
      assert c[n] == BlockAt(n, NO_FORK);
    }
  }

  /** Blocks 0 to 3 were scanned; the head falls back to 2 and the message of block 3 stays stored. */
  lemma LoweredMessagesExample(range: nat)
    ensures var d, e, h, s := ONE_MESSAGE, Polled(ChainTo(2, NO_FORK), 0, true, true, 2, true), HistoryTo(3), StateTo(3, 1);
            var store := L1Ingestion.Store(L1Ingestion.QueueAt(d, h.seen, 3), 3);
            && L1Ingestion.Mirrors(d, h, s, store) && Admissible(h, e)
            && var (h', s') := After(h, s, range, e);
               !L1Ingestion.Mirrors(d, h', s', L1Ingestion.Ingest(d, h, s, range, e, store))
  {
    var d, e, h, s := ONE_MESSAGE, Polled(ChainTo(2, NO_FORK), 0, true, true, 2, true), HistoryTo(3), StateTo(3, 1);
    StartAgrees(3, 1);
    MainServes(3, 2, NO_FORK, 0);
    OneMessageIsOrderly(3);
    OneMessageIsOrderly(2);
    GenesisLeavesTracked(3);
    assert s.tracked[1] == Last(e.chain);
    assert e.chain == h.seen[..3];
    L1Ingestion.LoweredHeadKeepsMessages(d, h, s, range, e, L1Ingestion.Store(L1Ingestion.QueueAt(d, h.seen, 3), 3));
    assert d.messages(h.seen[3].hash) != [];
  }
}
