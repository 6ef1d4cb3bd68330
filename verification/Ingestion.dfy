/**
 From the watcher to the stored queue: what the node holds after it has handled every notification
 is exactly what the tracked chain says up to the cursor.
 */
module L1Ingestion {
  import opened Primitives
  import opened L1Watcher
  import opened L1WatcherRuns
  import MessageQueue

  /** What L1 fixes: the messages in each block, the rolling hash and where it starts. */
  datatype L1Data = L1Data(
    messages: Hash -> seq<MessageQueue.Message>,
    H: MessageQueue.HashFn,
    v2Start: nat)

  type Queue = seq<MessageQueue.Stored>

  // ---- The queue a chain amounts to ----

  /** The messages of one block, delivered in order. */
  function DeliverAll(d: L1Data, q: Queue, ms: seq<MessageQueue.Message>, l1Block: nat): Queue {
    if ms == [] then q
    else MessageQueue.Deliver(d.H, DeliverAll(d, q, ms[..|ms| - 1], l1Block), d.v2Start, ms[|ms| - 1], l1Block)
  }

  /** The queue after the blocks of a chain up to number `n`. */
  function QueueTo(d: L1Data, c: seq<Header>, n: nat): Queue
    requires n < |c|
  {
    if n == 0 then [] else DeliverAll(d, QueueTo(d, c, n - 1), d.messages(c[n].hash), n)
  }

  /** The same for a cursor that may be past the head, or on a chain not seen yet. */
  function QueueAt(d: L1Data, c: seq<Header>, n: nat): Queue {
    if c == [] then [] else QueueTo(d, c, Min(n, |c| - 1))
  }

  /** The messages of a block continue the queue of its ancestors. */
  predicate Continues(q: Queue, ms: seq<MessageQueue.Message>) {
    forall i :: 0 <= i < |ms| ==> ms[i].queueIndex == |q| + i
  }

  /** The messages of block `n` continue those below it, and there are none up to block `start`. */
  ghost predicate OrderlyAt(d: L1Data, c: seq<Header>, start: nat, n: nat)
    requires 0 < n < |c|
  {
    Continues(QueueTo(d, c, n - 1), d.messages(c[n].hash)) && (n <= start ==> d.messages(c[n].hash) == [])
  }

  /** Message indices run through the chain without a gap, and start above block `start`. */
  ghost predicate Orderly(d: L1Data, c: seq<Header>, start: nat) {
    forall n :: 0 < n < |c| ==> OrderlyAt(d, c, start, n)
  }

  lemma {:induction false} DeliverAppends(d: L1Data, q: Queue, ms: seq<MessageQueue.Message>, l1Block: nat)
    requires Continues(q, ms)
    ensures var r := DeliverAll(d, q, ms, l1Block);
            && |r| == |q| + |ms| && r[..|q|] == q
            && forall i :: |q| <= i < |r| ==> r[i].l1Block == l1Block && r[i].txHash == ms[i - |q|].txHash
    decreases |ms|
  {
    if ms != [] {
      DeliverAppends(d, q, ms[..|ms| - 1], l1Block);
    }
  }

  /** The rows `b` has on top of `a` come from blocks above `m`, up to `n`. */
  ghost predicate Extends(a: Queue, b: Queue, m: nat, n: nat) {
    a <= b && forall i :: |a| <= i < |b| ==> m < b[i].l1Block <= n
  }

  /** Going up a chain only appends, and what is appended comes from the blocks passed. */
  lemma {:induction false} QueueGrows(d: L1Data, c: seq<Header>, start: nat, m: nat, n: nat)
    requires Orderly(d, c, start) && m <= n < |c|
    ensures Extends(QueueTo(d, c, m), QueueTo(d, c, n), m, n)
    decreases n
  {
    if m < n {
      QueueGrows(d, c, start, m, n - 1);
      assert OrderlyAt(d, c, start, n);
      DeliverAppends(d, QueueTo(d, c, n - 1), d.messages(c[n].hash), n);
      AppendAgain(QueueTo(d, c, m), QueueTo(d, c, n - 1), QueueTo(d, c, n), m, n);
    }
  }

  lemma AppendAgain(a: Queue, b: Queue, c: Queue, m: nat, n: nat)
    requires m < n && Extends(a, b, m, n - 1) && |b| <= |c| && c[..|b|] == b
    requires forall i :: |b| <= i < |c| ==> c[i].l1Block == n
    ensures Extends(a, c, m, n)
  {
    assert forall i :: 0 <= i < |b| ==> c[i] == c[..|b|][i];
  }

  lemma QueueBelow(d: L1Data, c: seq<Header>, start: nat, n: nat)
    requires Orderly(d, c, start) && n < |c|
    ensures forall i :: 0 <= i < |QueueTo(d, c, n)| ==> QueueTo(d, c, n)[i].l1Block <= n
  {
    QueueGrows(d, c, start, 0, n);
  }

  lemma {:induction false} TruncateIs(q: Queue, k: nat, ancestor: nat)
    requires k <= |q| && (forall i :: 0 <= i < k ==> q[i].l1Block <= ancestor) && (k < |q| ==> q[k].l1Block > ancestor)
    ensures MessageQueue.Truncate(q, ancestor) == q[..k]
    decreases k
  {
    if k > 0 {
      assert forall i :: 0 <= i < k - 1 ==> q[1..][i] == q[i + 1];
      TruncateIs(q[1..], k - 1, ancestor);
    }
  }

  /** Unwinding to a block leaves the queue of the chain up to it. */
  lemma TruncateQueue(d: L1Data, c: seq<Header>, start: nat, n: nat, ancestor: nat)
    requires Orderly(d, c, start) && n < |c|
    ensures MessageQueue.Truncate(QueueTo(d, c, n), ancestor) == QueueTo(d, c, Min(n, ancestor))
  {
    var m := Min(n, ancestor);
    QueueGrows(d, c, start, m, n);
    QueueBelow(d, c, start, m);
    var q, k := QueueTo(d, c, n), |QueueTo(d, c, m)|;
    assert forall i :: 0 <= i < k ==> q[i] == QueueTo(d, c, m)[i];
    TruncateIs(q, k, ancestor);
  }

  lemma {:induction false} SamePrefixQueue(d: L1Data, a: seq<Header>, b: seq<Header>, n: nat)
    requires n < |a| && n < |b| && a[..n + 1] == b[..n + 1]
    ensures QueueTo(d, a, n) == QueueTo(d, b, n)
    decreases n
  {
    if n > 0 {
      SamePrefix(a, b, n, n + 1);
      SamePrefixQueue(d, a, b, n - 1);
      assert a[n] == a[..n + 1][n] == b[..n + 1][n] == b[n];
    }
  }

  lemma {:induction false} NothingEarly(d: L1Data, c: seq<Header>, start: nat, n: nat)
    requires Orderly(d, c, start) && n < |c| && n <= start
    ensures QueueTo(d, c, n) == []
    decreases n
  {
    if n > 0 {
      NothingEarly(d, c, start, n - 1);
      assert OrderlyAt(d, c, start, n);
    }
  }

  // ---- What the queue holds ----

  /** The messages of a chain up to number `n`, in order, each with its block. */
  function Listed(d: L1Data, c: seq<Header>, n: nat): seq<(MessageQueue.Message, nat)>
    requires n < |c|
  {
    if n == 0 then []
    else
      var ms := d.messages(c[n].hash);
      Listed(d, c, n - 1) + seq(|ms|, i requires 0 <= i < |ms| => (ms[i], n))
  }

  /** Row `i` holds message `i`: its transaction hash and its block. */
  ghost predicate HoldsListed(q: Queue, listed: seq<(MessageQueue.Message, nat)>) {
    && |q| == |listed|
    && forall i :: 0 <= i < |q| ==>
         listed[i].0.queueIndex == i && q[i].txHash == listed[i].0.txHash && q[i].l1Block == listed[i].1
  }

  lemma BlockIsListed(d: L1Data, c: seq<Header>, start: nat, n: nat)
    requires Orderly(d, c, start) && 0 < n < |c| && HoldsListed(QueueTo(d, c, n - 1), Listed(d, c, n - 1))
    ensures HoldsListed(QueueTo(d, c, n), Listed(d, c, n))
  {
    var q, ms := QueueTo(d, c, n - 1), d.messages(c[n].hash);
    assert OrderlyAt(d, c, start, n);
    DeliverAppends(d, q, ms, n);
    var after := QueueTo(d, c, n);
    assert forall i :: 0 <= i < |q| ==> after[i] == after[..|q|][i];
  }

  /** The queue of a chain holds its messages, one row each, in order. */
  lemma {:induction false} QueueIsListed(d: L1Data, c: seq<Header>, start: nat, n: nat)
    requires Orderly(d, c, start) && n < |c|
    ensures HoldsListed(QueueTo(d, c, n), Listed(d, c, n))
    decreases n
  {
    if n > 0 {
      QueueIsListed(d, c, start, n - 1);
      BlockIsListed(d, c, start, n);
    }
  }

  lemma {:induction false} DeliverAllHashes(d: L1Data, q: Queue, ms: seq<MessageQueue.Message>, l1Block: nat)
    requires MessageQueue.Hashed(d.H, q, d.v2Start)
    ensures MessageQueue.Hashed(d.H, DeliverAll(d, q, ms, l1Block), d.v2Start)
    decreases |ms|
  {
    if ms != [] {
      DeliverAllHashes(d, q, ms[..|ms| - 1], l1Block);
      MessageQueue.DeliverKeepsHashes(d.H, DeliverAll(d, q, ms[..|ms| - 1], l1Block), d.v2Start, ms[|ms| - 1], l1Block);
    }
  }

  /** Every row from the V2 start on carries the fold of the hashes so far. */
  lemma {:induction false} QueueIsHashed(d: L1Data, c: seq<Header>, n: nat)
    requires n < |c|
    ensures MessageQueue.Hashed(d.H, QueueTo(d, c, n), d.v2Start)
    decreases n
  {
    if n > 0 {
      QueueIsHashed(d, c, n - 1);
      DeliverAllHashes(d, QueueTo(d, c, n - 1), d.messages(c[n].hash), n);
    }
  }

  /** What the stored queue must be: the messages of the chain up to the cursor, with their rolling hashes. */
  ghost predicate Complete(d: L1Data, c: seq<Header>, cursor: nat, q: Queue) {
    && MessageQueue.Hashed(d.H, q, d.v2Start)
    && (c == [] ==> q == [])
    && (c != [] ==> HoldsListed(q, Listed(d, c, Min(cursor, |c| - 1))))
  }

  lemma MirrorIsComplete(d: L1Data, h: History, s: State, store: Store)
    requires Mirrors(d, h, s, store)
    ensures Complete(d, h.seen, s.cursor, store.queue)
  {
    if h.seen != [] {
      QueueIsListed(d, h.seen, h.base, Min(s.cursor, |h.seen| - 1));
      QueueIsHashed(d, h.seen, Min(s.cursor, |h.seen| - 1));
    }
  }

  // ---- Handling the notifications ----

  /** The stored queue and how far the blocks delivered to it go. */
  datatype Store = Store(queue: Queue, upTo: nat)

  /** The messages of the blocks above `from`, up to `end`. */
  function DeliverRange(d: L1Data, q: Queue, c: seq<Header>, from: nat, end: nat): Queue
    requires end < |c|
    decreases end
  {
    if end <= from then q else DeliverAll(d, DeliverRange(d, q, c, from, end - 1), d.messages(c[end].hash), end)
  }

  /** A reorg unwinds; a processed range delivers its blocks; the others do not touch the queue. */
  function Handle(d: L1Data, c: seq<Header>, store: Store, note: Notification): Store {
    match note
    case Reorg(n) => Store(MessageQueue.Truncate(store.queue, n), Min(n, store.upTo))
    case Processed(end) => if end < |c| then Store(DeliverRange(d, store.queue, c, store.upTo, end), end) else store
    case _ => store
  }

  function HandleAll(d: L1Data, c: seq<Header>, store: Store, notes: seq<Notification>): Store
    decreases |notes|
  {
    if notes == [] then store else HandleAll(d, c, Handle(d, c, store, notes[0]), notes[1..])
  }

  lemma {:induction false} HandleConcat(d: L1Data, c: seq<Header>, store: Store, a: seq<Notification>, b: seq<Notification>)
    ensures HandleAll(d, c, store, a + b) == HandleAll(d, c, HandleAll(d, c, store, a), b)
    decreases |a|
  {
    if a == [] {
      assert a + b == b;
    } else {
      assert (a + b)[0] == a[0] && (a + b)[1..] == a[1..] + b;
      HandleConcat(d, c, Handle(d, c, store, a[0]), a[1..], b);
    }
  }

  lemma {:induction false} RangeContinues(d: L1Data, c: seq<Header>, from: nat, end: nat)
    requires from <= end < |c|
    ensures DeliverRange(d, QueueTo(d, c, from), c, from, end) == QueueTo(d, c, end)
    decreases end
  {
    if from < end {
      RangeContinues(d, c, from, end - 1);
    }
  }

  /** The store holds what the chain says up to the cursor. */
  ghost predicate MirrorsAt(d: L1Data, c: seq<Header>, cursor: nat, store: Store) {
    store == Store(QueueAt(d, c, cursor), cursor)
  }

  ghost predicate Mirrors(d: L1Data, h: History, s: State, store: Store) {
    Orderly(d, h.seen, h.base) && MirrorsAt(d, h.seen, s.cursor, store)
  }

  // ---- One poll ----

  /** The notifications of the first half of a poll do not touch the queue. */
  lemma FinalizedTouchesNothing(d: L1Data, c: seq<Header>, store: Store, s: State, f: Header)
    ensures var s1 := HandleFinalized(s, f);
            HandleAll(d, c, store, s1.sent[|s.sent|..]) == store
  {
    var s1 := HandleFinalized(s, f);
    var notes := s1.sent[|s.sent|..];
    assert notes == [] || notes == [FinalizedBlock(f.number)];
    assert notes != [] ==> notes[1..] == [];
  }

  /** After the second half the store holds what the new chain says up to the rewound cursor. */
  lemma DetectionKeepsMirror(d: L1Data, h: History, s1: State, c: seq<Header>, f: nat, s2: State, reorg: Option<nat>, store: Store)
    requires f < |c| && Detects(h, s1, c, f, s2, reorg) && Indexed(h, s1) && Mirrors(d, h, s1, store)
    requires Orderly(d, c, h.base) && !(c < h.seen)
    ensures HandleAll(d, c, store, ReorgNotes(reorg)) == Store(QueueAt(d, c, s2.cursor), s2.cursor)
  {
    match reorg {
      case None => ContinuedQueue(d, h, s1, c);
      case Some(n) =>
        var notes := ReorgNotes(reorg);
        assert notes[0] == Reorg(n) && notes[1..] == [];
        ForkedQueue(d, h, s1, c, n);
    }
  }

  /** The new chain continues the old one: the same queue up to the same cursor. */
  lemma ContinuedQueue(d: L1Data, h: History, s: State, c: seq<Header>)
    requires Indexed(h, s) && Orderly(d, h.seen, h.base) && Orderly(d, c, h.base) && h.seen <= c && c != []
    ensures QueueAt(d, c, s.cursor) == QueueAt(d, h.seen, s.cursor)
  {
    if h.base < s.cursor {
      assert s.cursor in s.scanned;
      assert h.seen[..s.cursor + 1] == c[..s.cursor + 1];
      SamePrefixQueue(d, h.seen, c, s.cursor);
    } else {
      EarlyQueue(d, c, h.base, s.cursor);
      EarlyQueue(d, h.seen, h.base, s.cursor);
    }
  }

  lemma EarlyQueue(d: L1Data, c: seq<Header>, start: nat, n: nat)
    requires Orderly(d, c, start) && n <= start
    ensures QueueAt(d, c, n) == []
  {
    if c != [] {
      NothingEarly(d, c, start, Min(n, |c| - 1));
    }
  }

  /** The reported block is common: unwinding to it leaves what the new chain says up to it. */
  lemma ForkedQueue(d: L1Data, h: History, s: State, c: seq<Header>, n: nat)
    requires Orderly(d, h.seen, h.base) && n < CommonLength(h.seen, c)
    ensures MessageQueue.Truncate(QueueAt(d, h.seen, s.cursor), n) == QueueAt(d, c, Min(n, s.cursor))
  {
    var m := Min(n, s.cursor);
    TruncateQueue(d, h.seen, h.base, Min(s.cursor, |h.seen| - 1), n);
    SamePrefix(h.seen, c, m + 1, CommonLength(h.seen, c));
    SamePrefixQueue(d, h.seen, c, m);
  }

  lemma ScanKeepsMirror(d: L1Data, c: seq<Header>, base: nat, s: State, range: nat)
    requires c != [] && |c| <= U64_MAX && Orderly(d, c, base) && (base < s.cursor ==> s.cursor < |c|)
    ensures var s' := Scan(s, range, |c| - 1, Served(c));
            HandleAll(d, c, Store(QueueAt(d, c, s.cursor), s.cursor), [Processed(s'.cursor)]) ==
            Store(QueueAt(d, c, s'.cursor), s'.cursor)
  {
    var s' := Scan(s, range, |c| - 1, Served(c));
    var notes := [Processed(s'.cursor)];
    assert notes[1..] == [];
    if s.cursor < |c| {
      RangeContinues(d, c, s.cursor, s'.cursor);
    } else {
      EarlyQueue(d, c, base, s.cursor);
      EarlyQueue(d, c, base, s'.cursor);
    }
  }

  /** Neither a reorg nor a processed range. */
  lemma {:induction false} QuietNotes(d: L1Data, c: seq<Header>, store: Store, notes: seq<Notification>)
    requires forall i :: 0 <= i < |notes| ==> !notes[i].Reorg? && !notes[i].Processed?
    ensures HandleAll(d, c, store, notes) == store
    decreases |notes|
  {
    if notes != [] {
      QuietNotes(d, c, store, notes[1..]);
    }
  }

  /** The notifications of a handled poll: finality, the reorg, the head, then the scan. */
  lemma HandledNotes(d: L1Data, c: seq<Header>, store: Store, store2: Store, fin: seq<Notification>, reorg: seq<Notification>,
                     head: seq<Notification>, scan: seq<Notification>)
    requires HandleAll(d, c, store, fin) == store && HandleAll(d, c, store, reorg) == store2
    requires forall i :: 0 <= i < |head| ==> head[i].NewBlock?
    ensures HandleAll(d, c, store, fin + reorg + head + scan) == HandleAll(d, c, store2, scan)
  {
    HandleConcat(d, c, store, fin + reorg + head, scan);
    HandleConcat(d, c, store, fin + reorg, head);
    HandleConcat(d, c, store, fin, reorg);
    QuietNotes(d, c, store2, head);
  }

  /** A poll whose latest block was handled, scanned or not. */
  lemma HandledKeepsMirror(d: L1Data, h: History, s: State, range: nat, c: seq<Header>, f: nat, s2: State, reorg: Option<nat>,
                           scans: bool, store: Store)
    requires f < |c| <= U64_MAX && Indexed(h, s) && Mirrors(d, h, s, store)
    requires Detects(h, HandleFinalized(s, c[f]), c, f, s2, reorg)
    requires Orderly(d, c, h.base) && !(c < h.seen)
    ensures var s' := if scans then Scan(s2, range, |c| - 1, Served(c)) else s2;
            && s.sent <= s'.sent
            && MirrorsAt(d, c, s'.cursor, HandleAll(d, c, store, s'.sent[|s.sent|..]))
  {
    var s1 := HandleFinalized(s, c[f]);
    var s' := if scans then Scan(s2, range, |c| - 1, Served(c)) else s2;
    var scan := if scans then [Processed(s'.cursor)] else [];
    FinalizedTouchesNothing(d, c, store, s, c[f]);
    IndexedSame(h, s, h, s1);
    DetectionKeepsMirror(d, h, s1, c, f, s2, reorg, store);
    DetectionKeepsIndex(h, s1, c, f, s2, reorg);
    HandledNotes(d, c, store, Store(QueueAt(d, c, s2.cursor), s2.cursor), s1.sent[|s.sent|..], ReorgNotes(reorg),
                 HeadNotes(s1, Last(c)), scan);
    SentParts(s.sent, s1.sent, ReorgNotes(reorg), HeadNotes(s1, Last(c)), scan, s'.sent);
    ScannedStore(d, c, h.base, s2, range, scans);
  }

  lemma SentParts<T>(before: seq<T>, handled: seq<T>, a: seq<T>, b: seq<T>, c: seq<T>, after: seq<T>)
    requires before <= handled && after == handled + a + b + c
    ensures before <= after && after[|before|..] == handled[|before|..] + a + b + c
  {
  }

  lemma ScannedStore(d: L1Data, c: seq<Header>, base: nat, s: State, range: nat, scans: bool)
    requires c != [] && |c| <= U64_MAX && Orderly(d, c, base) && (base < s.cursor ==> s.cursor < |c|)
    ensures var s' := if scans then Scan(s, range, |c| - 1, Served(c)) else s;
            HandleAll(d, c, Store(QueueAt(d, c, s.cursor), s.cursor), if scans then [Processed(s'.cursor)] else []) ==
            Store(QueueAt(d, c, s'.cursor), s'.cursor)
  {
    if scans {
      ScanKeepsMirror(d, c, base, s, range);
    }
  }

  // ---- Whole runs ----

  /** The store after the notifications of a poll, or after an operator's unwind and reset. */
  ghost function Ingest(d: L1Data, h: History, s: State, range: nat, e: Event, store: Store): Store
    requires Admissible(h, e)
  {
    match e
    case ResetTo(b) => Store(MessageQueue.Truncate(store.queue, b), b)
    case Polled(c, _, _, _, _, _) => HandleAll(d, c, store, NewNotes(s, After(h, s, range, e).1))
  }

  ghost function IngestAll(d: L1Data, h: History, s: State, range: nat, events: seq<Event>, store: Store): Store
    requires AdmissibleRun(h, s, range, events)
    decreases |events|
  {
    if events == [] then store
    else
      var (h', s') := After(h, s, range, events[0]);
      IngestAll(d, h', s', range, events[1..], Ingest(d, h, s, range, events[0], store))
  }

  /** L1 keeps its messages in order, the head is never an ancestor of the one seen, resets go back. */
  ghost predicate Regular(d: L1Data, h: History, s: State, e: Event) {
    match e
    case ResetTo(b) => b <= s.cursor
    case Polled(c, _, _, _, _, _) => Orderly(d, c, h.base) && !(c < h.seen) && |c| <= U64_MAX
  }

  lemma DidKeepsMirror(d: L1Data, h: History, s: State, range: nat, e: Event, h': History, s': State, handled: bool, s2: State,
                       reorg: Option<nat>, store: Store)
    requires e.Polled? && e.finalizedAt < |e.chain| && Did(h, s, range, e, h', s', handled, s2, reorg)
    requires Indexed(h, s) && Mirrors(d, h, s, store) && Regular(d, h, s, e)
    ensures Mirrors(d, h', s', HandleAll(d, e.chain, store, NewNotes(s, s')))
  {
    var c, f := e.chain, e.finalizedAt;
    if handled {
      HandledKeepsMirror(d, h, s, range, c, f, s2, reorg, !(|c| - 1 == s2.cursor || !e.logsServed), store);
      MirrorsOn(d, h', s', c, h.base, HandleAll(d, c, store, NewNotes(s, s')));
    } else if e.finalizedServed {
      FinalizedTouchesNothing(d, c, store, s, c[f]);
    } else {
      QuietNotes(d, c, store, NewNotes(s, s));
    }
  }

  lemma PollKeepsMirror(d: L1Data, h: History, s: State, range: nat, e: Event, store: Store)
    requires e.Polled? && Admissible(h, e) && Agrees(h, s) && Mirrors(d, h, s, store) && Regular(d, h, s, e)
    ensures var (h', s') := After(h, s, range, e); Mirrors(d, h', s', Ingest(d, h, s, range, e, store))
  {
    var handled, s2, reorg := PollDid(h, s, range, e);
    var (h', s') := After(h, s, range, e);
    DidKeepsMirror(d, h, s, range, e, h', s', handled, s2, reorg, store);
  }

  lemma ResetKeepsMirror(d: L1Data, h: History, s: State, range: nat, b: nat, store: Store)
    requires Mirrors(d, h, s, store) && b <= s.cursor
    ensures var (h', s') := After(h, s, range, ResetTo(b));
            Mirrors(d, h', s', Store(MessageQueue.Truncate(store.queue, b), b))
  {
    TruncateBack(d, h.seen, h.base, s.cursor, b);
  }

  lemma TruncateBack(d: L1Data, c: seq<Header>, start: nat, n: nat, b: nat)
    requires Orderly(d, c, start) && b <= n
    ensures MessageQueue.Truncate(QueueAt(d, c, n), b) == QueueAt(d, c, b)
  {
    if c != [] {
      TruncateQueue(d, c, start, Min(n, |c| - 1), b);
      assert Min(Min(n, |c| - 1), b) == Min(b, |c| - 1);
    }
  }

  ghost predicate RegularRun(d: L1Data, h: History, s: State, range: nat, events: seq<Event>)
    requires AdmissibleRun(h, s, range, events)
    decreases |events|
  {
    events == [] ||
    (Regular(d, h, s, events[0]) &&
     var (h', s') := After(h, s, range, events[0]); RegularRun(d, h', s', range, events[1..]))
  }

  /**
   End to end over whole runs: after any regular sequence of polls, failed requests and resets,
   once every notification has been handled the stored queue is exactly what the chain the watcher
   tracks says up to the cursor: every message of those blocks, in order, with its block and its
   rolling hash, and nothing else.
   */
  lemma {:induction false} StoredQueueIsTheChains(d: L1Data, h: History, s: State, range: nat, events: seq<Event>, store: Store)
    requires AdmissibleRun(h, s, range, events) && RegularRun(d, h, s, range, events)
    requires Agrees(h, s) && Mirrors(d, h, s, store)
    ensures var r := AfterAll(h, s, range, events);
            Agrees(r.0, r.1) && Mirrors(d, r.0, r.1, IngestAll(d, h, s, range, events, store))
    ensures var r := AfterAll(h, s, range, events);
            Complete(d, r.0.seen, r.1.cursor, IngestAll(d, h, s, range, events, store).queue)
    decreases |events|
  {
    if events != [] {
      var (h', s') := After(h, s, range, events[0]);
      match events[0] {
        case Polled(_, _, _, _, _, _) =>
          PollKeepsAgreement(h, s, range, events[0]);
          PollKeepsMirror(d, h, s, range, events[0], store);
        case ResetTo(b) =>
          ResetKeepsAgreement(h, s, range, b);
          ResetKeepsMirror(d, h, s, range, b, store);
      }
      StoredQueueIsTheChains(d, h', s', range, events[1..], Ingest(d, h, s, range, events[0], store));
    } else {
      MirrorIsComplete(d, h, s, store);
    }
  }

  /** A spawned watcher in front of an empty store. */
  lemma SpawnedMirrors(d: L1Data, head: nat, finalized: nat, startBlock: nat)
    ensures var s, h := State([], head, finalized, Pred(startBlock), map[], []), History([], [], Pred(startBlock));
            Mirrors(d, h, s, Store([], Pred(startBlock)))
  {
  }

  // ---- The head falls back ----

  /** None of the blocks above `n`, up to `m`, holds a message. */
  ghost predicate Empty(d: L1Data, c: seq<Header>, n: nat, m: nat) {
    forall k :: n < k <= m && k < |c| ==> d.messages(c[k].hash) == []
  }

  lemma LengthStep(d: L1Data, c: seq<Header>, start: nat, m: nat)
    requires Orderly(d, c, start) && 0 < m < |c|
    ensures |QueueTo(d, c, m)| == |QueueTo(d, c, m - 1)| + |d.messages(c[m].hash)|
  {
    assert OrderlyAt(d, c, start, m);
    DeliverAppends(d, QueueTo(d, c, m - 1), d.messages(c[m].hash), m);
  }

  lemma EmptyStep(d: L1Data, c: seq<Header>, n: nat, m: nat)
    requires n < m < |c|
    ensures Empty(d, c, n, m) <==> Empty(d, c, n, m - 1) && |d.messages(c[m].hash)| == 0
  {
    if Empty(d, c, n, m) {
      assert d.messages(c[m].hash) == [];
    }
  }

  lemma {:induction false} SameLengthExactly(d: L1Data, c: seq<Header>, start: nat, n: nat, m: nat)
    requires Orderly(d, c, start) && n <= m < |c|
    ensures |QueueTo(d, c, n)| <= |QueueTo(d, c, m)|
    ensures |QueueTo(d, c, m)| == |QueueTo(d, c, n)| <==> Empty(d, c, n, m)
    decreases m
  {
    if n < m {
      SameLengthExactly(d, c, start, n, m - 1);
      LengthStep(d, c, start, m);
      EmptyStep(d, c, n, m);
    }
  }

  lemma SameQueueExactly(d: L1Data, c: seq<Header>, start: nat, n: nat, m: nat)
    requires Orderly(d, c, start) && n <= m < |c|
    ensures QueueTo(d, c, m) == QueueTo(d, c, n) <==> Empty(d, c, n, m)
  {
    SameLengthExactly(d, c, start, n, m);
    QueueGrows(d, c, start, n, m);
  }

  /**
   When the head falls back to a tracked block nothing is reported, so nothing is unwound: once the
   logs were scanned the stored queue is what the shorter chain says if and only if no scanned
   block above the new head holds a message.
   */
  lemma LoweredHeadKeepsMessages(d: L1Data, h: History, s: State, range: nat, e: Event, store: Store)
    requires e.Polled? && e.finalizedServed && e.latestServed && e.logsServed && Admissible(h, e)
    requires Agrees(h, s) && Mirrors(d, h, s, store) && Orderly(d, e.chain, h.base)
    requires e.chain < h.seen && s.cursor < |h.seen| <= U64_MAX && |e.chain| - 1 - e.finalizedAt <= e.lookups
    requires Last(e.chain) in HandleFinalized(s, e.chain[e.finalizedAt]).tracked
    ensures var (h', s') := After(h, s, range, e);
            Mirrors(d, h', s', Ingest(d, h, s, range, e, store)) <==> Empty(d, h.seen, |e.chain| - 1, s.cursor)
  {
    var handled, s2, reorg := PollDid(h, s, range, e);
    var (h', s') := After(h, s, range, e);
    LoweredDid(d, h, s, range, e, h', s', s2, reorg, store);
  }

  lemma LoweredDid(d: L1Data, h: History, s: State, range: nat, e: Event, h': History, s': State, s2: State, reorg: Option<nat>, store: Store)
    requires e.Polled? && e.finalizedAt < |e.chain| && e.logsServed && Did(h, s, range, e, h', s', true, s2, reorg)
    requires Mirrors(d, h, s, store) && Orderly(d, e.chain, h.base)
    requires e.chain < h.seen && s.cursor < |h.seen| <= U64_MAX
    requires Last(e.chain) in HandleFinalized(s, e.chain[e.finalizedAt]).tracked
    ensures Mirrors(d, h', s', HandleAll(d, e.chain, store, NewNotes(s, s'))) <==> Empty(d, h.seen, |e.chain| - 1, s.cursor)
  {
    SilentVerdict(h, HandleFinalized(s, e.chain[e.finalizedAt]), e.chain, e.finalizedAt, reorg);
    LoweredHandled(d, h, s, range, e.chain, e.finalizedAt, s2, store);
    MirrorsOn(d, h', s', e.chain, h.base, HandleAll(d, e.chain, store, NewNotes(s, s')));
  }

  lemma SilentVerdict(h: History, s: State, c: seq<Header>, f: nat, reorg: Option<nat>)
    requires c != [] && f < |c| && Verdict(h, s, c, f, reorg) && Last(c) in s.tracked
    ensures reorg.None?
  {
  }

  lemma MirrorsOn(d: L1Data, h: History, s: State, c: seq<Header>, base: nat, store: Store)
    requires h.seen == c && h.base == base && Orderly(d, c, base)
    ensures Mirrors(d, h, s, store) <==> MirrorsAt(d, c, s.cursor, store)
  {
  }

  /** The store after the scan of a chain that fell back. */
  function LoweredStore(d: L1Data, c: seq<Header>, s2: State, s': State, store: Store): Store {
    if |c| - 1 == s2.cursor then store else Handle(d, c, store, Processed(s'.cursor))
  }

  lemma LoweredHandled(d: L1Data, h: History, s: State, range: nat, c: seq<Header>, f: nat, s2: State, store: Store)
    requires f < |c| <= U64_MAX && c < h.seen && Mirrors(d, h, s, store) && s.cursor < |h.seen|
    requires Detects(h, HandleFinalized(s, c[f]), c, f, s2, None) && Orderly(d, c, h.base)
    ensures var s' := if |c| - 1 == s2.cursor then s2 else Scan(s2, range, |c| - 1, Served(c));
            && s.sent <= s'.sent
            && (MirrorsAt(d, c, s'.cursor, HandleAll(d, c, store, s'.sent[|s.sent|..])) <==>
                Empty(d, h.seen, |c| - 1, s.cursor))
  {
    var s' := if |c| - 1 == s2.cursor then s2 else Scan(s2, range, |c| - 1, Served(c));
    LoweredNotes(d, h, s, range, c, f, s2, s', store);
    LoweredQueue(d, h, s, range, c, s2, store);
  }

  lemma LoweredNotes(d: L1Data, h: History, s: State, range: nat, c: seq<Header>, f: nat, s2: State, s': State, store: Store)
    requires f < |c| && Detects(h, HandleFinalized(s, c[f]), c, f, s2, None)
    requires s' == if |c| - 1 == s2.cursor then s2 else Scan(s2, range, |c| - 1, Served(c))
    ensures s.sent <= s'.sent && HandleAll(d, c, store, s'.sent[|s.sent|..]) == LoweredStore(d, c, s2, s', store)
  {
    var s1 := HandleFinalized(s, c[f]);
    var scan := if |c| - 1 == s2.cursor then [] else [Processed(s'.cursor)];
    FinalizedTouchesNothing(d, c, store, s, c[f]);
    HandledNotes(d, c, store, store, s1.sent[|s.sent|..], [], HeadNotes(s1, Last(c)), scan);
    SentParts(s.sent, s1.sent, [], HeadNotes(s1, Last(c)), scan, s'.sent);
    assert scan != [] ==> scan[1..] == [];
  }

  lemma LoweredQueue(d: L1Data, h: History, s: State, range: nat, c: seq<Header>, s2: State, store: Store)
    requires c != [] && |c| <= U64_MAX && c < h.seen && Mirrors(d, h, s, store) && s.cursor < |h.seen|
    requires Orderly(d, c, h.base) && s2.cursor == s.cursor
    ensures var s' := if |c| - 1 == s2.cursor then s2 else Scan(s2, range, |c| - 1, Served(c));
            MirrorsAt(d, c, s'.cursor, LoweredStore(d, c, s2, s', store)) <==> Empty(d, h.seen, |c| - 1, s.cursor)
  {
    var s' := Scan(s2, range, |c| - 1, Served(c));
    assert c == h.seen[..|c|] && c[..|c|] == c;
    if s.cursor < |c| {
      SamePrefix(h.seen, c, s.cursor + 1, |c|);
      SamePrefixQueue(d, h.seen, c, s.cursor);
      RangeContinues(d, c, s.cursor, s'.cursor);
    } else {
      SamePrefixQueue(d, h.seen, c, |c| - 1);
      SameQueueExactly(d, h.seen, h.base, |c| - 1, s.cursor);
    }
  }

  // ---- In place ----

  /** Handling the messages of one block, one after the other, stores exactly that block's part. */
  method IngestBlock(store: MessageQueue.MessageStore, d: L1Data, messages: seq<MessageQueue.Message>, l1Block: nat)
    returns (error: Option<MessageQueue.QueueError>)
    requires store.v2Start == d.v2Start && MessageQueue.Dense(store.rows)
    modifies store
    ensures MessageQueue.Dense(store.rows)
    ensures Continues(old(MessageQueue.AsSeq(store.rows)), messages) ==>
              error.None? && MessageQueue.AsSeq(store.rows) == DeliverAll(d, old(MessageQueue.AsSeq(store.rows)), messages, l1Block)
  {
    error := None;
    ghost var q := MessageQueue.AsSeq(store.rows);
    for i := 0 to |messages|
      invariant MessageQueue.Dense(store.rows)
      invariant Continues(q, messages) ==>
                  error.None? && MessageQueue.AsSeq(store.rows) == DeliverAll(d, q, messages[..i], l1Block)
    {
      assert messages[..i + 1][..i] == messages[..i];
      if Continues(q, messages) {
        DeliverAppends(d, q, messages[..i], l1Block);
      }
      var failed := store.HandleL1Message(d.H, messages[i], l1Block);
      if failed.Some? {
        error := failed;
      }
    }
    assert messages[..|messages|] == messages;
  }
}
