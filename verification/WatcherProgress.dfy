/** The watcher gets somewhere: polls that are answered move the cursor up to the head, and the messages with it. */
module L1WatcherProgress {
  import opened Primitives
  import opened L1Watcher
  import opened L1WatcherRuns
  import L1Ingestion
  import MessageQueue

  /** Every request of the poll is answered. */
  predicate FullyServed(e: Event) {
    && e.Polled? && e.finalizedAt < |e.chain| && e.finalizedServed && e.latestServed && e.logsServed
    && |e.chain| - 1 - e.finalizedAt <= e.lookups
  }

  /** The cursor after the rewind that a reported reorg asks for. */
  function Rewound(cursor: nat, reorg: Option<nat>): nat {
    if reorg.Some? && reorg.value < cursor then reorg.value else cursor
  }

  /** The notifications of an answered poll: finality, the reorg, the head, the range processed. */
  function Notes(s: State, f: Header, latest: Header, headKnown: bool, reorg: Option<nat>, cursor: nat): seq<Notification> {
    (if s.finalized < f.number then [FinalizedBlock(f.number)] else []) +
    (if reorg.Some? then [Reorg(reorg.value)] else []) +
    (if headKnown then [] else [NewBlock(BlockInfo(latest.number, latest.hash))]) +
    (if Rewound(s.cursor, reorg) == latest.number then [] else [Processed(cursor)])
  }

  /** Handling the finalized block: what it announces and what it remembers. */
  lemma FinalityNoted(s: State, f: Header)
    ensures var s1 := HandleFinalized(s, f);
            && s1.finalized == (if s.finalized < f.number then f.number else s.finalized)
            && s1.sent == s.sent + if s.finalized < f.number then [FinalizedBlock(f.number)] else []
  {
  }

  /** A scan goes on from the cursor: to the head, or exactly one range further. */
  lemma ScanAdvances(s: State, range: nat, head: nat, c: seq<Header>)
    requires head < U64_MAX && 0 < range
    ensures var s' := Scan(s, range, head, Served(c));
            && (s'.cursor == head || (s'.cursor == s.cursor + range && s'.cursor < head))
            && s'.sent == s.sent + [Processed(s'.cursor)]
            && s'.tracked == s.tracked && s'.finalized == s.finalized && s'.head == s.head
  {
  }

  /**
   An answered poll gets on: the cursor ends at the head, or exactly `range` above where the reorg, if
   one was reported, left it. Its notifications are finality, the reorg, the head unless it was the
   last one tracked, and the block processed, in this order and no others.
   */
  lemma PollAdvances(h: History, s: State, range: nat, e: Event) returns (reorg: Option<nat>)
    requires FullyServed(e) && Admissible(h, e) && Tracks(h, s) && 0 < range && |e.chain| <= U64_MAX
    ensures var (h', s') := After(h, s, range, e);
            var c, head := e.chain, |e.chain| - 1;
            var s1 := HandleFinalized(s, c[e.finalizedAt]);
            && h'.seen == c && h'.base == h.base
            && Verdict(h, s1, c, e.finalizedAt, reorg)
            && (s'.cursor == head || (s'.cursor == Rewound(s.cursor, reorg) + range && s'.cursor < head))
            && s.sent <= s'.sent
            && NewNotes(s, s') ==
               Notes(s, c[e.finalizedAt], c[head], s1.tracked != [] && Last(s1.tracked).hash == c[head].hash, reorg, s'.cursor)
  {
    var handled, s2, found := PollDid(h, s, range, e);
    reorg := found;
    var (h', s') := After(h, s, range, e);
    DidAdvance(h, s, range, e, h', s', s2, reorg);
  }

  lemma ServedNumber(h: History, c: seq<Header>, f: nat)
    requires Serves(h, c, f)
    ensures c != [] && Last(c).number == |c| - 1
  {
  }

  lemma DidAdvance(h: History, s: State, range: nat, e: Event, h': History, s': State, s2: State, reorg: Option<nat>)
    requires FullyServed(e) && Did(h, s, range, e, h', s', true, s2, reorg) && Serves(h, e.chain, e.finalizedAt)
    requires 0 < range && |e.chain| <= U64_MAX
    ensures var c, head := e.chain, |e.chain| - 1;
            var s1 := HandleFinalized(s, c[e.finalizedAt]);
            && Verdict(h, s1, c, e.finalizedAt, reorg)
            && (s'.cursor == head || (s'.cursor == Rewound(s.cursor, reorg) + range && s'.cursor < head))
            && s.sent <= s'.sent
            && NewNotes(s, s') ==
               Notes(s, c[e.finalizedAt], c[head], s1.tracked != [] && Last(s1.tracked).hash == c[head].hash, reorg, s'.cursor)
  {
    var c, f := e.chain, e.finalizedAt;
    var s1 := HandleFinalized(s, c[f]);
    ServedNumber(h, c, f);
    FinalityNoted(s, c[f]);
    ScanAdvances(s2, range, |c| - 1, c);
    var fin := if s.finalized < c[f].number then [FinalizedBlock(c[f].number)] else [];
    var head := HeadNotes(s1, Last(c));
    var scan := if |c| - 1 == s2.cursor then [] else [Processed(s'.cursor)];
    assert s2.sent == s1.sent + ReorgNotes(reorg) + head;
    JoinNotes(s.sent, fin, ReorgNotes(reorg), head, scan, s1.sent, s2.sent, s'.sent);
  }

  lemma JoinNotes<T>(sent: seq<T>, fin: seq<T>, reorg: seq<T>, head: seq<T>, scan: seq<T>, sent1: seq<T>, sent2: seq<T>, sent3: seq<T>)
    requires sent1 == sent + fin && sent2 == sent1 + reorg + head && sent3 == sent2 + scan
    ensures sent <= sent3 && sent3[|sent|..] == fin + reorg + head + scan
  {
  }

  // ---- Catching up ----

  /** The events are answered polls of one chain. */
  ghost predicate PollsOf(events: seq<Event>, c: seq<Header>) {
    forall i :: 0 <= i < |events| ==> FullyServed(events[i]) && events[i].chain == c
  }

  /** How far these polls can move the cursor: one range each. */
  function Room(events: seq<Event>, range: nat): nat {
    if events == [] then 0 else range + Room(events[1..], range)
  }

  lemma {:induction false} RoomIs(events: seq<Event>, range: nat)
    ensures Room(events, range) == |events| * range
    decreases |events|
  {
    if events != [] {
      RoomIs(events[1..], range);
      assert |events| * range == (|events| - 1) * range + range;
    }
  }

  /** One answered poll of a chain that continues the one seen: no reorg, so the cursor goes on from where it is. */
  lemma StepUp(h: History, s: State, range: nat, e: Event)
    requires FullyServed(e) && Admissible(h, e) && Tracks(h, s) && h.seen <= e.chain && 0 < range && |e.chain| <= U64_MAX
    ensures var (h', s') := After(h, s, range, e);
            && h'.seen == e.chain && h'.base == h.base
            && (s'.cursor == |e.chain| - 1 || (s'.cursor == s.cursor + range && s'.cursor < |e.chain| - 1))
  {
    var reorg := PollAdvances(h, s, range, e);
  }

  lemma ScannedToHead(h: History, s: State)
    requires Indexed(h, s) && s.cursor == |h.seen| - 1
    ensures forall n :: h.base < n < |h.seen| ==> n in s.scanned && s.scanned[n] == h.seen[n].hash
  {
  }

  /** The chain has been seen, and moving on by `room` reaches its head. */
  ghost predicate Closer(h: History, s: State, base: nat, room: nat, c: seq<Header>) {
    && Agrees(h, s) && h.seen == c && h.base == base
    && |c| - 1 <= s.cursor + room && (room == 0 ==> s.cursor == |c| - 1)
  }

  /** A step of catching up, and everything the next one needs. */
  lemma StepCloser(h: History, s: State, range: nat, e: Event, room: nat)
    requires FullyServed(e) && Admissible(h, e) && Agrees(h, s) && h.seen <= e.chain && 0 < range && |e.chain| <= U64_MAX
    requires |e.chain| - 1 <= s.cursor + range + room
    ensures Closer(After(h, s, range, e).0, After(h, s, range, e).1, h.base, room, e.chain)
  {
    StepUp(h, s, range, e);
    PollKeepsAgreement(h, s, range, e);
  }

  lemma {:induction false} RestCatchesUp(h: History, s: State, range: nat, events: seq<Event>, c: seq<Header>)
    requires AdmissibleRun(h, s, range, events) && PollsOf(events, c)
    requires Closer(h, s, h.base, Room(events, range), c) && |c| <= U64_MAX && 0 < range
    ensures var (h', s') := AfterAll(h, s, range, events); Closer(h', s', h.base, 0, c)
    decreases |events|
  {
    if events != [] {
      assert FullyServed(events[0]) && events[0].chain == c;
      StepCloser(h, s, range, events[0], Room(events[1..], range));
      var (h1, s1) := After(h, s, range, events[0]);
      assert PollsOf(events[1..], c);
      RestCatchesUp(h1, s1, range, events[1..], c);
    }
  }

  /**
   Catching up: while one chain continues the one seen and is polled with every request answered, as
   many polls as ranges are missing bring the cursor to the head. Then every block number above the
   base was scanned under the hash it has on that chain.
   */
  lemma CatchesUp(h: History, s: State, range: nat, events: seq<Event>, c: seq<Header>)
    requires AdmissibleRun(h, s, range, events) && Agrees(h, s) && PollsOf(events, c) && events != []
    requires h.seen <= c && |c| <= U64_MAX && 0 < range && |c| - 1 - s.cursor <= |events| * range
    ensures var (h', s') := AfterAll(h, s, range, events);
            && Agrees(h', s') && h'.seen == c && h'.base == h.base && s'.cursor == |c| - 1
            && forall n :: h.base < n < |c| ==> n in s'.scanned && s'.scanned[n] == c[n].hash
  {
    RoomIs(events, range);
    FirstThenRest(h, s, range, events, c);
    var (h', s') := AfterAll(h, s, range, events);
    ScannedToHead(h', s');
  }

  lemma FirstThenRest(h: History, s: State, range: nat, events: seq<Event>, c: seq<Header>)
    requires AdmissibleRun(h, s, range, events) && Agrees(h, s) && PollsOf(events, c) && events != []
    requires h.seen <= c && |c| <= U64_MAX && 0 < range && |c| - 1 <= s.cursor + Room(events, range)
    ensures var (h', s') := AfterAll(h, s, range, events); Closer(h', s', h.base, 0, c)
  {
    assert FullyServed(events[0]) && events[0].chain == c;
    StepCloser(h, s, range, events[0], Room(events[1..], range));
    var (h1, s1) := After(h, s, range, events[0]);
    assert PollsOf(events[1..], c);
    RestCatchesUp(h1, s1, range, events[1..], c);
  }

  /**
   After a fork the first answered poll rewinds and goes one range on; from there the rest catches up.
   */
  lemma CatchesUpAfterFork(h: History, s: State, range: nat, events: seq<Event>, c: seq<Header>)
    requires AdmissibleRun(h, s, range, events) && Agrees(h, s) && PollsOf(events, c) && |events| > 1
    requires |c| <= U64_MAX && 0 < range
    requires |c| - 1 - After(h, s, range, events[0]).1.cursor <= (|events| - 1) * range
    ensures var (h', s') := AfterAll(h, s, range, events);
            && h'.seen == c && s'.cursor == |c| - 1
            && forall n :: h.base < n < |c| ==> n in s'.scanned && s'.scanned[n] == c[n].hash
  {
    var (h1, s1) := After(h, s, range, events[0]);
    assert FullyServed(events[0]) && events[0].chain == c;
    SeenAfterPoll(h, s, range, events[0]);
    PollKeepsAgreement(h, s, range, events[0]);
    assert PollsOf(events[1..], c);
    CatchesUp(h1, s1, range, events[1..], c);
  }

  lemma SeenAfterPoll(h: History, s: State, range: nat, e: Event)
    requires FullyServed(e) && Admissible(h, e) && Tracks(h, s) && 0 < range && |e.chain| <= U64_MAX
    ensures After(h, s, range, e).0.seen == e.chain && After(h, s, range, e).0.base == h.base
  {
    var _ := PollAdvances(h, s, range, e);
  }

  /** And the stored queue holds every message of the chain. */
  lemma MessagesCatchUp(d: L1Ingestion.L1Data, h: History, s: State, range: nat, events: seq<Event>, c: seq<Header>,
                        store: L1Ingestion.Store)
    requires AdmissibleRun(h, s, range, events) && Agrees(h, s) && PollsOf(events, c) && events != []
    requires h.seen <= c && |c| <= U64_MAX && 0 < range && |c| - 1 - s.cursor <= |events| * range
    requires L1Ingestion.RegularRun(d, h, s, range, events) && L1Ingestion.Mirrors(d, h, s, store)
    ensures AllListed(d, c, L1Ingestion.IngestAll(d, h, s, range, events, store).queue)
  {
    CatchesUp(h, s, range, events, c);
    L1Ingestion.StoredQueueIsTheChains(d, h, s, range, events, store);
    var (h', s') := AfterAll(h, s, range, events);
    CompleteAtHead(d, h'.seen, s'.cursor, L1Ingestion.IngestAll(d, h, s, range, events, store).queue);
  }

  /** The queue holds every message of the chain, in order, with its block and its rolling hash. */
  ghost predicate AllListed(d: L1Ingestion.L1Data, c: seq<Header>, q: L1Ingestion.Queue) {
    c != [] && L1Ingestion.HoldsListed(q, L1Ingestion.Listed(d, c, |c| - 1)) && MessageQueue.Hashed(d.H, q, d.v2Start)
  }

  lemma CompleteAtHead(d: L1Ingestion.L1Data, c: seq<Header>, cursor: nat, q: L1Ingestion.Queue)
    requires L1Ingestion.Complete(d, c, cursor, q) && cursor == |c| - 1
    ensures AllListed(d, c, q)
  {
  }

  // ---- The head ----

  /** The watcher remembers the number of the last block it tracks. */
  predicate HeadKnown(s: State) {
    s.tracked != [] ==> s.head == Last(s.tracked).number
  }

  /**
   Once the latest block was handled the remembered head is its number. The signer is refreshed after
   that, and only if the two differ, so it never is.
   */
  lemma HeadFollows(h: History, s: State, c: seq<Header>, f: nat, lookups: nat)
    requires Tracks(h, s) && Serves(h, c, f) && (|h.seen| <= f ==> h.seen <= c) && HeadKnown(s)
    ensures var s1 := HandleFinalized(s, c[f]);
            var r := HandleLatest(s1, c[f], Last(c), Served(c), lookups);
            && HeadKnown(s1) && (r.1.None? ==> r.0.head == Last(c).number && HeadKnown(r.0))
  {
    var s1 := HandleFinalized(s, c[f]);
    var r := HandleLatest(s1, c[f], Last(c), Served(c), lookups);
    FinalityKeepsHead(s, c[f]);
    LatestSetsHead(s1, c[f], Last(c), Served(c), lookups);
    if r.1.None? {
      TrackedEndsAtHead(h, s, c, f, lookups);
    }
  }

  lemma FinalityKeepsHead(s: State, f: Header)
    requires HeadKnown(s)
    ensures HeadKnown(HandleFinalized(s, f))
  {
  }

  /** A handled latest block is announced with its number, unless it is the last one tracked. */
  lemma LatestSetsHead(s: State, f: Header, latest: Header, blocks: map<nat, Header>, lookups: nat)
    ensures var r := HandleLatest(s, f, latest, blocks, lookups);
            r.1.None? ==> r.0.head == latest.number || (r.0 == s && s.tracked != [])
  {
  }

  lemma TrackedEndsAtHead(h: History, s: State, c: seq<Header>, f: nat, lookups: nat)
    requires Tracks(h, s) && Serves(h, c, f) && (|h.seen| <= f ==> h.seen <= c)
    ensures var r := HandleLatest(HandleFinalized(s, c[f]), c[f], Last(c), Served(c), lookups);
            r.1.None? && r.0.tracked != [] ==> Last(r.0.tracked) == Last(c)
  {
    var r := HandleLatest(HandleFinalized(s, c[f]), c[f], Last(c), Served(c), lookups);
    var _ := ForkDetection(h, s, c, f, lookups);
    if r.1.None? {
      LastTracked(c, Settle(h, c, f).settled, r.0.tracked);
    }
  }

  lemma LastTracked(seen: seq<Header>, settled: seq<Header>, tracked: seq<Header>)
    requires TracksAt(seen, settled, tracked) && seen != []
    ensures tracked != [] ==> Last(tracked) == Last(seen)
  {
  }

  /** Over every run of polls and resets the watcher knows its head. */
  lemma {:induction false} HeadStaysKnown(h: History, s: State, range: nat, events: seq<Event>)
    requires AdmissibleRun(h, s, range, events) && Agrees(h, s) && HeadKnown(s)
    ensures HeadKnown(AfterAll(h, s, range, events).1)
    decreases |events|
  {
    if events != [] {
      StepKnowsHead(h, s, range, events[0]);
      var (h', s') := After(h, s, range, events[0]);
      match events[0] {
        case Polled(_, _, _, _, _, _) => PollKeepsAgreement(h, s, range, events[0]);
        case ResetTo(b) => ResetKeepsAgreement(h, s, range, b);
      }
      HeadStaysKnown(h', s', range, events[1..]);
    }
  }

  lemma StepKnowsHead(h: History, s: State, range: nat, e: Event)
    requires Admissible(h, e) && Agrees(h, s) && HeadKnown(s)
    ensures HeadKnown(After(h, s, range, e).1)
  {
    if e.Polled? {
      var s1 := HandleFinalized(s, e.chain[e.finalizedAt]);
      var r := HandleLatest(s1, e.chain[e.finalizedAt], Last(e.chain), Served(e.chain), e.lookups);
      AfterParts(h, s, range, e, s1, r);
      HeadFollows(h, s, e.chain, e.finalizedAt, e.lookups);
      var _ := ForkDetection(h, s, e.chain, e.finalizedAt, e.lookups);
    }
  }
}
