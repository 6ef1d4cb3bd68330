/**
 The L1 watcher: it tracks the unfinalized L1 chain, walks back to find forks, reports
 `Reorg(n)`, rewinds its cursor and scans block ranges. The functions specify one poll on
 values; the class `Watcher` does the same work in place.
 */
module L1Watcher {
  import opened Primitives
  import opened Bounded

  const MAX_UNFINALIZED_BLOCK_COUNT: nat := 96
  const HEADER_CAPACITY: nat := 2 * MAX_UNFINALIZED_BLOCK_COUNT

  datatype Header = Header(hash: Hash, number: nat, parentHash: Hash)

  /** The notifications about the chain itself. Those decoded from logs are summarised by `scanned`. */
  datatype Notification =
    | FinalizedBlock(number: nat)
    | Reorg(number: nat)
    | NewBlock(info: BlockInfo)
    | Processed(number: nat)

  datatype WatcherError = TransportError | MissingBlock(number: nat)

  /**
   What one poll is served: the two tagged blocks (`None` is a failed request), the blocks by
   number, how many block lookups are answered before the transport fails, and whether the log
   phase succeeds.
   */
  datatype Poll = Poll(
    finalized: Option<Header>,
    latest: Option<Header>,
    blocks: map<nat, Header>,
    lookups: nat,
    logsServed: bool)

  /** The watcher's state; `scanned` maps a block number to the hash it was last scanned under. */
  datatype State = State(
    tracked: seq<Header>,
    head: nat,
    finalized: nat,
    cursor: nat,
    scanned: map<nat, Hash>,
    sent: seq<Notification>)

  // ---- The finalized block ----

  /** The first index whose header has this hash. */
  function Position(hs: seq<Header>, hash: Hash): (r: Option<nat>)
    ensures r.Some? ==> r.value < |hs| && hs[r.value].hash == hash
    ensures r.None? ==> forall i :: 0 <= i < |hs| ==> hs[i].hash != hash
  {
    if hs == [] then None
    else if hs[0].hash == hash then Some(0)
    else match Position(hs[1..], hash)
      case None => None
      case Some(p) => Some(p + 1)
  }

  function NoteFinalized(s: State, f: Header): State {
    if s.finalized < f.number
    then s.(finalized := f.number, sent := s.sent + [FinalizedBlock(f.number)])
    else s
  }

  function HandleFinalized(s: State, f: Header): (r: State)
    ensures r.cursor == s.cursor && r.scanned == s.scanned && s.sent <= r.sent
  {
    var s1 := NoteFinalized(s, f);
    if s.tracked == [] then s1
    else if s.tracked[|s.tracked| - 1].number < f.number then s1.(tracked := [])
    else match Position(s.tracked, f.hash)
      case Some(p) => s1.(tracked := s.tracked[p + 1..])
      case None => s1
  }

  // ---- The walk back from the latest block ----

  /** The last index that holds exactly this header. */
  function RPosition(hs: seq<Header>, h: Header): (r: Option<nat>)
    ensures r.Some? ==> r.value < |hs| && hs[r.value] == h
    ensures r.None? ==> h !in hs
  {
    if hs == [] then None
    else if hs[|hs| - 1] == h then Some(|hs| - 1)
    else RPosition(hs[..|hs| - 1], h)
  }

  /** The walk ends at a tracked block, at a child of the finalized block or at that block. */
  predicate Stops(tracked: seq<Header>, f: Header, current: Header) {
    current in tracked || current.parentHash == f.hash || current.hash == f.hash
  }

  /** How a walk ends; `chain` runs from the stopping block up to where the walk began. */
  datatype Walk =
    | Ended(position: Option<nat>, chain: seq<Header>)
    | Failed(error: WatcherError)

  function Under(w: Walk, above: seq<Header>): Walk {
    match w
    case Ended(p, chain) => Ended(p, chain + above)
    case Failed(_) => w
  }

  /** The walk down from `current`, with `lookups` answers left. */
  function WalkBack(tracked: seq<Header>, f: Header, current: Header, blocks: map<nat, Header>, lookups: nat): (w: Walk)
    ensures w.Ended? ==> w.chain != []
    ensures w.Ended? && w.position.Some? ==> w.position.value < |tracked| && tracked[w.position.value] == w.chain[0]
    decreases lookups
  {
    if Stops(tracked, f, current) then Ended(RPosition(tracked, current), [current])
    else if lookups == 0 then Failed(TransportError)
    else if Pred(current.number) !in blocks then Failed(MissingBlock(Pred(current.number)))
    else Under(WalkBack(tracked, f, blocks[Pred(current.number)], blocks, lookups - 1), [current])
  }

  /** The tracked chain after a walk: the old prefix below the split, then the walked blocks. */
  function Combine(tracked: seq<Header>, position: Option<nat>, chain: seq<Header>): seq<Header>
    requires position.Some? ==> position.value <= |tracked|
  {
    Newest(tracked[..if position.Some? then position.value else 0] + chain, HEADER_CAPACITY)
  }

  // ---- The latest block ----

  /** The first index of the zip at which the hashes differ. */
  function FirstDifference(older: seq<Header>, newer: seq<Header>): (r: Option<nat>)
    ensures r.None? ==> forall i :: 0 <= i < |older| && i < |newer| ==> older[i].hash == newer[i].hash
    ensures r.Some? ==> r.value < |older| && r.value < |newer| && older[r.value].hash != newer[r.value].hash
    ensures r.Some? ==> forall i :: 0 <= i < r.value ==> older[i].hash == newer[i].hash
  {
    if older == [] || newer == [] then None
    else if older[0].hash != newer[0].hash then Some(0)
    else match FirstDifference(older[1..], newer[1..])
      case None => None
      case Some(i) => Some(i + 1)
  }

  /** The block number a reorg is reported at: just below the first old block that was replaced. */
  function ReorgNumber(older: seq<Header>, newer: seq<Header>): Option<nat> {
    match FirstDifference(older, newer)
    case None => None
    case Some(i) => Some(Pred(older[i].number))
  }

  function Announce(s: State, latest: Header): State {
    s.(head := latest.number,
       sent := s.sent + [NewBlock(BlockInfo(latest.number, latest.hash))])
  }

  function Rewind(s: State, reorg: Option<nat>): State {
    match reorg
    case None => s
    case Some(n) => s.(cursor := Min(n, s.cursor), sent := s.sent + [Reorg(n)])
  }

  /** The state after a walk that ended with `position` and `chain`. */
  function Adopt(s: State, position: Option<nat>, chain: seq<Header>, latest: Header): State
    requires position.Some? ==> position.value <= |s.tracked|
  {
    var tracked := Combine(s.tracked, position, chain);
    Announce(Rewind(s.(tracked := tracked), ReorgNumber(s.tracked, tracked)), latest)
  }

  function HandleLatest(s: State, f: Header, latest: Header, blocks: map<nat, Header>, lookups: nat): (State, Option<WatcherError>) {
    if s.tracked != [] && s.tracked[|s.tracked| - 1].hash == latest.hash then (s, None)
    else if s.tracked != [] && s.tracked[|s.tracked| - 1].hash == latest.parentHash then
      (Announce(s.(tracked := Newest(s.tracked + [latest], HEADER_CAPACITY)), latest), None)
    else match WalkBack(s.tracked, f, latest, blocks, lookups)
      case Failed(error) => (s, Some(error))
      case Ended(position, chain) =>
        (Adopt(s, position, chain, latest), None)
  }

  // ---- Scanning and the whole step ----

  function ScanEnd(cursor: nat, range: nat, latest: nat): nat {
    Min(SaturatingAdd(cursor, range), latest)
  }

  /** The hashes of the served blocks in an inclusive range of numbers. */
  function HashesIn(from: nat, to: nat, blocks: map<nat, Header>): map<nat, Hash> {
    map n: nat | from <= n <= to && n in blocks :: blocks[n].hash
  }

  /** Scans the next range of blocks and moves the cursor to its end. */
  function Scan(s: State, range: nat, latest: nat, blocks: map<nat, Header>): State {
    var from, to := SaturatingAdd(s.cursor, 1), ScanEnd(s.cursor, range, latest);
    s.(scanned := s.scanned + HashesIn(from, to, blocks),
       cursor := to,
       sent := s.sent + [Processed(to)])
  }

  function Step(s: State, range: nat, p: Poll): (State, Option<WatcherError>) {
    if p.finalized.None? then (s, Some(TransportError)) else
    var s1 := HandleFinalized(s, p.finalized.value);
    if p.latest.None? then (s1, Some(TransportError)) else
    var (s2, error) := HandleLatest(s1, p.finalized.value, p.latest.value, p.blocks, p.lookups);
    if error.Some? || p.latest.value.number == s2.cursor then (s2, error)
    else if !p.logsServed then (s2, Some(TransportError))
    else (Scan(s2, range, p.latest.value.number, p.blocks), None)
  }

  // ---- The watcher in place ----

  /** Walks down from `latest` one served block at a time, then puts the blocks lowest first. */
  method WalkDown(tracked: seq<Header>, f: Header, latest: Header, blocks: map<nat, Header>, lookups: nat)
    returns (walk: Walk)
    ensures walk == WalkBack(tracked, f, latest, blocks, lookups)
  {
    var current, chain := latest, [latest];
    var left: nat := lookups;
    ghost var above: seq<Header> := [];
    while !Stops(tracked, f, current)
      invariant Reverse(chain) == [current] + above
      invariant Under(WalkBack(tracked, f, current, blocks, left), above) ==
                WalkBack(tracked, f, latest, blocks, lookups)
      decreases left
    {
      if left == 0 {
        return Failed(TransportError);
      }
      var number := Pred(current.number);
      if number !in blocks {
        return Failed(MissingBlock(number));
      }
      UnderTwice(WalkBack(tracked, f, blocks[number], blocks, left - 1), [current], above);
      PushReversed(chain, blocks[number]);
      above := [current] + above;
      left := left - 1;
      chain := chain + [blocks[number]];
      current := blocks[number];
    }
    return Ended(RPosition(tracked, current), Reverse(chain));
  }

  class Watcher {
    var unfinalized: BoundedVec<Header>
    var head: nat
    var finalized: nat
    var cursor: nat
    const range: nat
    ghost var scanned: map<nat, Hash>
    var sent: seq<Notification>

    ghost predicate Valid()
      reads this, unfinalized
    {
      unfinalized.Valid() && unfinalized.capacity == HEADER_CAPACITY
    }

    ghost function Current(): State
      reads this, unfinalized
    {
      State(unfinalized.data, head, finalized, cursor, scanned, sent)
    }

    constructor (startBlock: nat, head: nat, finalized: nat, range: nat)
      ensures Valid() && fresh(unfinalized) && this.range == range
      ensures Current() == State([], head, finalized, Pred(startBlock), map[], [])
      ensures 0 < startBlock ==> cursor + 1 == startBlock
    {
      unfinalized := new BoundedVec(HEADER_CAPACITY);
      this.head, this.finalized, this.range := head, finalized, range;
      cursor, scanned, sent := Pred(startBlock), map[], [];
    }

    method ResetToBlock(block: nat)
      requires Valid()
      modifies this
      ensures Valid() && unfinalized == old(unfinalized)
      ensures Current() == old(Current()).(cursor := block)
    {
      cursor := block;
    }

    method HandleFinalizedBlock(f: Header)
      requires Valid()
      modifies this, unfinalized
      ensures Valid() && unfinalized == old(unfinalized)
      ensures Current() == HandleFinalized(old(Current()), f)
    {
      if finalized < f.number {
        finalized := f.number;
        sent := sent + [FinalizedBlock(f.number)];
      }
      if unfinalized.data == [] {
        return;
      }
      if unfinalized.data[|unfinalized.data| - 1].number < f.number {
        unfinalized.Clear();
        return;
      }
      var position := Position(unfinalized.data, f.hash);
      if position.Some? {
        var _ := unfinalized.Drain(0, position.value + 1);
      }
    }

    method FetchUnfinalizedChain(f: Header, latest: Header, blocks: map<nat, Header>, lookups: nat)
      returns (prefix: BoundedVec<Header>, error: Option<WatcherError>)
      requires Valid()
      ensures fresh(prefix) && prefix.Valid() && prefix.capacity == HEADER_CAPACITY
      ensures match WalkBack(unfinalized.data, f, latest, blocks, lookups)
              case Failed(e) => error == Some(e)
              case Ended(position, chain) =>
                error == None && prefix.data == Combine(unfinalized.data, position, chain)
    {
      var walk := WalkDown(unfinalized.data, f, latest, blocks, lookups);
      prefix := new BoundedVec(HEADER_CAPACITY);
      match walk {
        case Failed(e) =>
          error := Some(e);
        case Ended(position, chain) =>
          error := None;
          var split := if position.Some? then position.value else 0;
          prefix.Extend(unfinalized.data[..split]);
          assert prefix.data == unfinalized.data[..split];
          prefix.Extend(chain);
      }
    }

    method HandleLatestBlock(f: Header, latest: Header, blocks: map<nat, Header>, lookups: nat)
      returns (error: Option<WatcherError>)
      requires Valid()
      modifies this, unfinalized
      ensures Valid() && (unfinalized == old(unfinalized) || fresh(unfinalized))
      ensures (Current(), error) == HandleLatest(old(Current()), f, latest, blocks, lookups)
    {
      error := None;
      var tracked := unfinalized.data;
      if tracked != [] && tracked[|tracked| - 1].hash == latest.hash {
        return;
      } else if tracked != [] && tracked[|tracked| - 1].hash == latest.parentHash {
        unfinalized.PushBack(latest);
      } else {
        var chain, failure := FetchUnfinalizedChain(f, latest, blocks, lookups);
        if failure.Some? {
          error := failure;
          return;
        }
        var reorg := ReorgNumber(tracked, chain.data);
        unfinalized := chain;
        if reorg.Some? {
          if reorg.value < cursor {
            cursor := reorg.value;
          }
          sent := sent + [Reorg(reorg.value)];
        }
      }
      head := latest.number;
      sent := sent + [NewBlock(BlockInfo(latest.number, latest.hash))];
    }

    /** Indexes the next range of blocks; the log decoding itself is not modelled. */
    method ScanNextRange(latest: nat, blocks: map<nat, Header>)
      requires Valid()
      modifies this
      ensures Valid() && unfinalized == old(unfinalized)
      ensures Current() == Scan(old(Current()), range, latest, blocks)
    {
      var to := ScanEnd(cursor, range, latest);
      ghost var from := SaturatingAdd(cursor, 1);
      scanned := scanned + HashesIn(from, to, blocks);
      cursor := to;
      sent := sent + [Processed(cursor)];
    }

    /** One poll of L1. */
    method Poll(p: Poll) returns (error: Option<WatcherError>)
      requires Valid()
      modifies this, unfinalized
      ensures Valid() && (unfinalized == old(unfinalized) || fresh(unfinalized))
      ensures (Current(), error) == Step(old(Current()), range, p)
    {
      if p.finalized.None? {
        return Some(TransportError);
      }
      HandleFinalizedBlock(p.finalized.value);
      if p.latest.None? {
        return Some(TransportError);
      }
      var latest := p.latest.value;
      error := HandleLatestBlock(p.finalized.value, latest, p.blocks, p.lookups);
      if error.Some? {
        return;
      }
      if latest.number != cursor {
        if !p.logsServed {
          return Some(TransportError);
        }
        ScanNextRange(latest.number, p.blocks);
      }
    }
  }

  lemma PushReversed<T>(s: seq<T>, x: T)
    ensures Reverse(s + [x]) == [x] + Reverse(s)
  {
  }

  lemma UnderTwice(w: Walk, low: seq<Header>, high: seq<Header>)
    ensures Under(Under(w, low), high) == Under(w, low + high)
  {
    if w.Ended? {
      assert w.chain + low + high == w.chain + (low + high);
    }
  }
}
