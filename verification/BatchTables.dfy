/**
 The database tables an L1 unwind and a batch revert rewrite: batch commitments, and the L2 blocks
 stored for each batch. The safe block is the highest stored block that is not reverted.
 */
module BatchTables {
  import opened Primitives

  datatype Row = Row(
    index: nat,
    blockNumber: nat,
    finalizedAt: Option<nat>,
    revertedAt: Option<nat>,
    status: BatchStatus)

  /** A stored block is identified by its hash and the hash of its batch. */
  datatype BlockKey = BlockKey(hash: Hash, batch: Hash)

  datatype L2Row = L2Row(number: nat, reverted: bool)

  datatype Tables = Tables(rows: map<Hash, Row>, blocks: map<BlockKey, L2Row>)

  predicate Above(n: Option<nat>, ancestor: nat) {
    n.Some? && n.value > ancestor
  }

  // ---- Unwinding, statement by statement ----

  /** Batches committed above the ancestor go, and their blocks with them. */
  function DeleteCommits(t: Tables, ancestor: nat): Tables {
    Tables(
      map h | h in t.rows && t.rows[h].blockNumber <= ancestor :: t.rows[h],
      map k | k in t.blocks && !(k.batch in t.rows && t.rows[k.batch].blockNumber > ancestor) :: t.blocks[k])
  }

  function ClearFinalizations(t: Tables, ancestor: nat): Tables {
    t.(rows := map h | h in t.rows ::
         if Above(t.rows[h].finalizedAt, ancestor) then t.rows[h].(finalizedAt := None) else t.rows[h])
  }

  /** The batches whose revert is undone. */
  function RevertedAbove(t: Tables, ancestor: nat): set<Hash> {
    set h | h in t.rows && Above(t.rows[h].revertedAt, ancestor)
  }

  function ClearReverts(t: Tables, ancestor: nat): Tables {
    var hashes := RevertedAbove(t, ancestor);
    Tables(
      map h | h in t.rows ::
        if h in hashes then t.rows[h].(revertedAt := None, status := BatchStatus.Consolidated) else t.rows[h],
      map k | k in t.blocks :: if k.batch in hashes then t.blocks[k].(reverted := false) else t.blocks[k])
  }

  function Unwound(t: Tables, ancestor: nat): Tables {
    ClearReverts(ClearFinalizations(DeleteCommits(t, ancestor), ancestor), ancestor)
  }

  // ---- What an unwind amounts to ----

  function UnwindRow(r: Row, ancestor: nat): Row {
    var r1 := if Above(r.finalizedAt, ancestor) then r.(finalizedAt := None) else r;
    if Above(r.revertedAt, ancestor) then r1.(revertedAt := None, status := BatchStatus.Consolidated) else r1
  }

  function UnwindRows(rows: map<Hash, Row>, ancestor: nat): map<Hash, Row> {
    map h | h in rows && rows[h].blockNumber <= ancestor :: UnwindRow(rows[h], ancestor)
  }

  /** Nothing in the row happened above the ancestor. */
  predicate Within(r: Row, ancestor: nat) {
    r.blockNumber <= ancestor && !Above(r.finalizedAt, ancestor) && !Above(r.revertedAt, ancestor)
  }

  /** The unwind changes nothing: no row was committed or reverted above the ancestor. */
  ghost predicate Untouched(rows: map<Hash, Row>, ancestor: nat) {
    forall h :: h in rows ==> rows[h].blockNumber <= ancestor && !Above(rows[h].revertedAt, ancestor)
  }

  // ---- Live rows ----

  predicate Live(rows: map<Hash, Row>, h: Hash, index: nat) {
    h in rows && rows[h].index == index && rows[h].revertedAt.None?
  }

  /** At most one row per batch index is not reverted. */
  ghost predicate LiveUnique(rows: map<Hash, Row>) {
    forall g, h, i :: Live(rows, g, i) && Live(rows, h, i) ==> g == h
  }

  /** `stored` is what a query by index returns. */
  ghost predicate Finds(rows: map<Hash, Row>, index: nat, stored: Option<Hash>) {
    match stored
    case Some(h) => Live(rows, h, index)
    case None => forall h :: !Live(rows, h, index)
  }

  /** The first row was reverted no later than the second was committed. */
  predicate RevertedBefore(g: Row, h: Row) {
    g.revertedAt.Some? && g.revertedAt.value <= h.blockNumber
  }

  /** L1 order: a batch index is committed again only after its earlier commitment was reverted. */
  ghost predicate Ordered(rows: map<Hash, Row>) {
    forall g, h :: g in rows && h in rows && g != h && rows[g].index == rows[h].index ==>
      RevertedBefore(rows[g], rows[h]) || RevertedBefore(rows[h], rows[g])
  }

  lemma OrderedIsLiveUnique(rows: map<Hash, Row>)
    requires Ordered(rows)
    ensures LiveUnique(rows)
  {
  }

  /** Unwinding keeps the order: a commitment that stays was preceded by a revert that stays. */
  lemma UnwindKeepsOrder(rows: map<Hash, Row>, ancestor: nat)
    requires Ordered(rows)
    ensures Ordered(UnwindRows(rows, ancestor))
  {
    var after := UnwindRows(rows, ancestor);
    forall g, h | g in after && h in after && g != h && after[g].index == after[h].index
      ensures RevertedBefore(after[g], after[h]) || RevertedBefore(after[h], after[g])
    {
      assert RevertedBefore(rows[g], rows[h]) || RevertedBefore(rows[h], rows[g]);
    }
  }

  // ---- What L1 does to the rows ----

  datatype Change =
    | Commit(hash: Hash, index: nat, blockNumber: nat)
    | FinalizeUpTo(index: nat, blockNumber: nat)
    | RevertRange(first: nat, last: nat, blockNumber: nat)
    | SetStatus(hash: Hash, status: BatchStatus)

  /** Committing a hash again overwrites its position but neither its revert nor its status. */
  function Committed(rows: map<Hash, Row>, hash: Hash, index: nat, blockNumber: nat): map<Hash, Row> {
    rows[hash := if hash in rows
                 then rows[hash].(index := index, blockNumber := blockNumber, finalizedAt := None)
                 else Row(index, blockNumber, None, None, BatchStatus.Committed)]
  }

  predicate InRevert(r: Row, first: nat, last: nat) {
    first <= r.index <= last && r.revertedAt.None?
  }

  function Changed(rows: map<Hash, Row>, c: Change): map<Hash, Row> {
    match c
    case Commit(hash, index, n) => Committed(rows, hash, index, n)
    case FinalizeUpTo(index, n) =>
      map h | h in rows ::
        if rows[h].index <= index && rows[h].finalizedAt.None? && rows[h].revertedAt.None?
        then rows[h].(finalizedAt := Some(n)) else rows[h]
    case RevertRange(first, last, n) =>
      map h | h in rows ::
        if InRevert(rows[h], first, last)
        then rows[h].(revertedAt := Some(n), status := BatchStatus.Reverted) else rows[h]
    case SetStatus(hash, status) =>
      if hash in rows then rows[hash := rows[hash].(status := status)] else rows
  }

  /** A batch revert marks the rows in the range and their blocks. */
  function RangeReverted(t: Tables, first: nat, last: nat, blockNumber: nat): Tables {
    Tables(
      Changed(t.rows, RevertRange(first, last, blockNumber)),
      map k | k in t.blocks ::
        if k.batch in t.rows && InRevert(t.rows[k.batch], first, last) then t.blocks[k].(reverted := true) else t.blocks[k])
  }

  /** L1 commits an index only once every other commitment of it has been reverted. */
  ghost predicate InL1Order(rows: map<Hash, Row>, c: Change) {
    c.Commit? ==>
      forall h :: h in rows && h != c.hash && rows[h].index == c.index ==>
        rows[h].revertedAt.Some? && rows[h].revertedAt.value <= c.blockNumber
  }

  /** The L1 block a change happened in; a status is not L1's. */
  function BlockOf(c: Change): Option<nat> {
    match c
    case Commit(_, _, n) => Some(n)
    case FinalizeUpTo(_, n) => Some(n)
    case RevertRange(_, _, n) => Some(n)
    case SetStatus(_, _) => None
  }

  /**
   What an unwind cannot give back: the position of a batch that was committed again, and the status
   of a reverted batch that was not consolidated.
   */
  ghost predicate Forgets(rows: map<Hash, Row>, c: Change, ancestor: nat) {
    match c
    case Commit(hash, _, _) => hash in rows && rows[hash].blockNumber <= ancestor
    case RevertRange(first, last, _) =>
      exists h :: h in rows && rows[h].blockNumber <= ancestor && InRevert(rows[h], first, last) &&
                  rows[h].status != BatchStatus.Consolidated
    case _ => false
  }

  /**
   An unwind undoes what L1 did above the ancestor: unwinding after the change and without it leave
   the same rows, if and only if the change overwrote nothing that is not stored elsewhere.
   */
  lemma UnwindUndoesExactly(rows: map<Hash, Row>, c: Change, ancestor: nat)
    requires BlockOf(c).Some? && BlockOf(c).value > ancestor
    ensures UnwindRows(Changed(rows, c), ancestor) == UnwindRows(rows, ancestor) <==> !Forgets(rows, c, ancestor)
  {
    var after, undone, plain := Changed(rows, c), UnwindRows(Changed(rows, c), ancestor), UnwindRows(rows, ancestor);
    if c.Commit? && Forgets(rows, c, ancestor) {
      assert c.hash in plain && c.hash !in undone;
    } else if c.RevertRange? && Forgets(rows, c, ancestor) {
      var h :| h in rows && rows[h].blockNumber <= ancestor && InRevert(rows[h], c.first, c.last) &&
               rows[h].status != BatchStatus.Consolidated;
      assert undone[h].status != plain[h].status;
    } else {
      assert undone.Keys == plain.Keys;
      forall h | h in plain
        ensures undone[h] == plain[h]
      {
        if c.RevertRange? && InRevert(rows[h], c.first, c.last) {
          assert rows[h].status == BatchStatus.Consolidated;
        }
      }
    }
  }

  /** A change at or below the ancestor survives the unwind: the two can be done in either order. */
  lemma UnwindKeepsChange(rows: map<Hash, Row>, c: Change, ancestor: nat, h: Hash)
    requires BlockOf(c).Some? && BlockOf(c).value <= ancestor && h in Changed(rows, c)
    requires c.Commit? ==> c.hash !in rows
    requires h in rows ==> Within(rows[h], ancestor)
    ensures h in UnwindRows(Changed(rows, c), ancestor) && UnwindRows(Changed(rows, c), ancestor)[h] == Changed(rows, c)[h]
    ensures c.Commit? && h == c.hash ==>
              && Live(UnwindRows(Changed(rows, c), ancestor), h, c.index)
              && UnwindRows(Changed(rows, c), ancestor)[h] == Row(c.index, c.blockNumber, None, None, BatchStatus.Committed)
    ensures c.FinalizeUpTo? && rows[h].index <= c.index && rows[h].revertedAt.None? && rows[h].finalizedAt.None? ==>
              UnwindRows(Changed(rows, c), ancestor)[h].finalizedAt == Some(c.blockNumber)
    ensures c.RevertRange? && InRevert(rows[h], c.first, c.last) ==>
              UnwindRows(Changed(rows, c), ancestor)[h] == rows[h].(revertedAt := Some(c.blockNumber), status := BatchStatus.Reverted)
  {
  }

  lemma ChangeKeepsOrder(rows: map<Hash, Row>, c: Change)
    requires Ordered(rows) && InL1Order(rows, c)
    ensures Ordered(Changed(rows, c))
  {
    var after := Changed(rows, c);
    forall g, h | g in after && h in after && g != h && after[g].index == after[h].index
      ensures RevertedBefore(after[g], after[h]) || RevertedBefore(after[h], after[g])
    {
      if c.Commit? && g == c.hash {
        assert RevertedBefore(after[h], after[g]);
      } else if c.Commit? && h == c.hash {
        assert RevertedBefore(after[g], after[h]);
      } else {
        assert RevertedBefore(rows[g], rows[h]) || RevertedBefore(rows[h], rows[g]);
      }
    }
  }

  // ---- The blocks of a consolidated batch ----

  /** A block stored for the batch before gets its number again; its revert mark is left alone. */
  function WithBlock(blocks: map<BlockKey, L2Row>, b: BlockInfo, batch: Hash): map<BlockKey, L2Row> {
    var k := BlockKey(b.hash, batch);
    blocks[k := if k in blocks then blocks[k].(number := b.number) else L2Row(b.number, false)]
  }

  function WithBlocks(blocks: map<BlockKey, L2Row>, added: seq<BlockInfo>, batch: Hash): map<BlockKey, L2Row> {
    if added == [] then blocks
    else WithBlock(WithBlocks(blocks, added[..|added| - 1], batch), added[|added| - 1], batch)
  }

  // ---- The safe block ----

  /** `b` is a stored block that is not reverted, and none of those is higher. */
  ghost predicate LatestSafe(blocks: map<BlockKey, L2Row>, b: BlockInfo) {
    && (exists k :: k in blocks && !blocks[k].reverted && b == BlockInfo(blocks[k].number, k.hash))
    && (forall k :: k in blocks && !blocks[k].reverted ==> blocks[k].number <= b.number)
  }

  /** A stored block is reverted exactly when its batch is. */
  ghost predicate Consistent(t: Tables) {
    forall k :: k in t.blocks && k.batch in t.rows ==>
      (t.blocks[k].reverted <==> t.rows[k.batch].revertedAt.Some?)
  }

  predicate CommittedAbove(rows: map<Hash, Row>, h: Hash, ancestor: nat) {
    h in rows && rows[h].blockNumber > ancestor
  }

  predicate RevertUndone(rows: map<Hash, Row>, h: Hash, ancestor: nat) {
    h in rows && Above(rows[h].revertedAt, ancestor)
  }

  // ---- The tables in place ----

  class BatchTable {
    var rows: map<Hash, Row>
    var blocks: map<BlockKey, L2Row>

    ghost function View(): Tables
      reads this
    {
      Tables(rows, blocks)
    }

    /**
     Three statements that leave no trace of anything above the ancestor and forget nothing at or
     below it. When they remove no commitment and undo no revert the stored blocks are unchanged.
     */
    method Unwind(ancestor: nat) returns (moved: bool)
      modifies this
      ensures View() == Unwound(old(View()), ancestor) && rows == UnwindRows(old(rows), ancestor)
      ensures forall h :: h in rows ==> Within(rows[h], ancestor)
      ensures forall h :: h in old(rows) && Within(old(rows)[h], ancestor) ==> h in rows && rows[h] == old(rows)[h]
      ensures forall k :: k in blocks <==> k in old(blocks) && !CommittedAbove(old(rows), k.batch, ancestor)
      ensures forall k :: k in blocks ==>
                && blocks[k].number == old(blocks)[k].number
                && (blocks[k].reverted <==> old(blocks)[k].reverted && !RevertUndone(old(rows), k.batch, ancestor))
      ensures old(Consistent(View())) ==> Consistent(View())
      ensures !moved <==> Untouched(old(rows), ancestor)
      ensures !moved ==> blocks == old(blocks)
    {
      ghost var t := Tables(rows, blocks);
      StatementsCompose(t, ancestor);
      BlocksAfter(t, ancestor);
      MovedIsExact(t, ancestor);
      var t1 := DeleteCommits(Tables(rows, blocks), ancestor);
      var t2 := ClearFinalizations(t1, ancestor);
      moved := t1.rows.Keys != rows.Keys || RevertedAbove(t2, ancestor) != {};
      var t3 := ClearReverts(t2, ancestor);
      rows, blocks := t3.rows, t3.blocks;
    }

    method GetByIndex(index: nat) returns (stored: Option<Hash>)
      ensures Finds(rows, index, stored)
    {
      if h :| h in rows && Live(rows, h, index) {
        return Some(h);
      }
      return None;
    }

    /** The batches in the range that are not reverted yet are, and their blocks with them. */
    method Revert(first: nat, last: nat, blockNumber: nat)
      modifies this
      ensures View() == RangeReverted(old(View()), first, last, blockNumber)
      ensures forall h, i :: first <= i <= last ==> !Live(rows, h, i)
      ensures blocks.Keys == old(blocks).Keys
      ensures forall k :: k in blocks ==>
                blocks[k].number == old(blocks)[k].number &&
                (blocks[k].reverted <==> old(blocks)[k].reverted || (k.batch in old(rows) && InRevert(old(rows)[k.batch], first, last)))
      ensures old(Consistent(View())) ==> Consistent(View())
    {
      var hashes := set h | h in rows && InRevert(rows[h], first, last);
      rows := map h | h in rows ::
        if h in hashes then rows[h].(revertedAt := Some(blockNumber), status := BatchStatus.Reverted) else rows[h];
      blocks := map k | k in blocks :: if k.batch in hashes then blocks[k].(reverted := true) else blocks[k];
    }

    method InsertBlocks(added: seq<BlockInfo>, batch: Hash)
      modifies this
      ensures View() == Tables(old(rows), WithBlocks(old(blocks), added, batch))
    {
      for i := 0 to |added|
        invariant rows == old(rows) && blocks == WithBlocks(old(blocks), added[..i], batch)
      {
        var k := BlockKey(added[i].hash, batch);
        blocks := blocks[k := if k in blocks then blocks[k].(number := added[i].number) else L2Row(added[i].number, false)];
        assert added[..i + 1][..i] == added[..i];
      }
      assert added[..|added|] == added;
    }

    /** The highest block that is not reverted; the query panics when there is none. */
    method GetLatestSafe() returns (safe: Option<BlockInfo>)
      ensures safe.Some? ==> LatestSafe(blocks, safe.value)
      ensures safe.None? ==> forall k :: k in blocks ==> blocks[k].reverted
    {
      var left := set k | k in blocks && !blocks[k].reverted;
      safe := None;
      while left != {}
        invariant forall k :: k in left ==> k in blocks && !blocks[k].reverted
        invariant safe.None? ==> forall k :: k in blocks && !blocks[k].reverted ==> k in left
        invariant safe.Some? ==>
                    && (exists k :: k in blocks && !blocks[k].reverted && safe.value == BlockInfo(blocks[k].number, k.hash))
                    && (forall k :: k in blocks && !blocks[k].reverted ==> k in left || blocks[k].number <= safe.value.number)
        decreases |left|
      {
        var k :| k in left;
        left := left - {k};
        if safe.None? || safe.value.number < blocks[k].number {
          safe := Some(BlockInfo(blocks[k].number, k.hash));
        }
      }
    }
  }

  lemma StatementsCompose(t: Tables, ancestor: nat)
    ensures Unwound(t, ancestor).rows == UnwindRows(t.rows, ancestor)
    ensures var rows := UnwindRows(t.rows, ancestor);
            && (forall h :: h in rows ==> Within(rows[h], ancestor))
            && (forall h :: h in t.rows && Within(t.rows[h], ancestor) ==> h in rows && rows[h] == t.rows[h])
  {
  }

  /**
   What is left of a row: its position, its finalization and revert if they happened at or below the
   ancestor, and its status, which becomes consolidated when a revert was undone.
   */
  lemma UnwoundRow(rows: map<Hash, Row>, ancestor: nat, h: Hash)
    ensures var after := UnwindRows(rows, ancestor);
            && (h in after <==> h in rows && rows[h].blockNumber <= ancestor)
            && (h in after ==>
                  && after[h].index == rows[h].index && after[h].blockNumber == rows[h].blockNumber
                  && after[h].finalizedAt == (if Above(rows[h].finalizedAt, ancestor) then None else rows[h].finalizedAt)
                  && after[h].revertedAt == (if Above(rows[h].revertedAt, ancestor) then None else rows[h].revertedAt)
                  && after[h].status == if Above(rows[h].revertedAt, ancestor) then BatchStatus.Consolidated else rows[h].status)
  {
  }

  lemma BlocksAfter(t: Tables, ancestor: nat)
    ensures var t3 := Unwound(t, ancestor);
            && (forall k :: k in t3.blocks <==> k in t.blocks && !CommittedAbove(t.rows, k.batch, ancestor))
            && (forall k :: k in t3.blocks ==>
                  && t3.blocks[k].number == t.blocks[k].number
                  && (t3.blocks[k].reverted <==> t.blocks[k].reverted && !RevertUndone(t.rows, k.batch, ancestor)))
            && (Consistent(t) ==> Consistent(t3))
  {
    var t2 := ClearFinalizations(DeleteCommits(t, ancestor), ancestor);
    assert forall h :: h in RevertedAbove(t2, ancestor) <==>
      RevertUndone(t.rows, h, ancestor) && !CommittedAbove(t.rows, h, ancestor);
  }

  lemma MovedIsExact(t: Tables, ancestor: nat)
    ensures var t1 := DeleteCommits(t, ancestor);
            var t2 := ClearFinalizations(t1, ancestor);
            var still := t1.rows.Keys == t.rows.Keys && RevertedAbove(t2, ancestor) == {};
            && (still <==> Untouched(t.rows, ancestor))
            && (still ==> ClearReverts(t2, ancestor).blocks == t.blocks)
  {
    var t1 := DeleteCommits(t, ancestor);
    var t2 := ClearFinalizations(t1, ancestor);
    assert forall h :: h in t1.rows.Keys <==> h in t.rows && t.rows[h].blockNumber <= ancestor;
    assert forall h :: h in RevertedAbove(t2, ancestor) <==> h in t1.rows && Above(t.rows[h].revertedAt, ancestor);
    if t1.rows.Keys == t.rows.Keys && RevertedAbove(t2, ancestor) == {} {
      forall h | h in t.rows
        ensures t.rows[h].blockNumber <= ancestor && !Above(t.rows[h].revertedAt, ancestor)
      {
        assert h in t1.rows.Keys && h !in RevertedAbove(t2, ancestor);
      }
    }
    if Untouched(t.rows, ancestor) {
      assert t1.rows.Keys == t.rows.Keys;
      assert RevertedAbove(t2, ancestor) == {};
      assert t1.blocks == t.blocks;
    }
  }
}
