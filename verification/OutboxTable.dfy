/** The outbox table and the three short transactions of one delivery. */
module OutboxTable {
  import opened Options

  type RowId = nat

  /** Instants are microseconds. */
  datatype Row = Row(createdAt: int, claimedAt: Option<int>, processedAt: Option<int>)

  type Rows = map<RowId, Row>

  const STALE_AFTER := 5 * 60 * 1_000_000

  predicate Claimable(row: Row, staleBefore: int) {
    row.processedAt.None? && (row.claimedAt.None? || row.claimedAt.value < staleBefore)
  }

  /** A row the claim query may return while other transactions hold the locked rows: the oldest
      claimable one that is not locked. Rows created at the same instant come in either order. */
  predicate IsNextClaim(rows: Rows, staleBefore: int, locked: set<RowId>, id: RowId) {
    && id in rows && id !in locked && Claimable(rows[id], staleBefore)
    && forall other :: other in rows && other !in locked && Claimable(rows[other], staleBefore) ==>
         rows[id].createdAt <= rows[other].createdAt
  }

  function Claimed(rows: Rows, id: RowId, now: int): Rows
    requires id in rows
  {
    rows[id := rows[id].(claimedAt := Some(now))]
  }

  /** After a failed POST: give the row back, unless somebody else finished it. */
  function Released(rows: Rows, id: RowId): Rows {
    if id in rows && rows[id].processedAt.None? then rows[id := rows[id].(claimedAt := None)] else rows
  }

  function Marked(rows: Rows, id: RowId, now: int): Rows {
    if id in rows then rows[id := rows[id].(claimedAt := None, processedAt := Some(now))] else rows
  }

  class Outbox {
    var rows: Rows

    constructor (rows: Rows)
      ensures this.rows == rows
    {
      this.rows := rows;
    }

    /** Phase 1. Scans for the oldest unlocked claimable row and stamps it. */
    method Claim(staleBefore: int, now: int, locked: set<RowId>) returns (claimed: Option<RowId>)
      modifies this
      ensures claimed.None? ==> rows == old(rows)
      ensures claimed.None? ==> forall id :: id in rows && id !in locked ==> !Claimable(rows[id], staleBefore)
      ensures claimed.Some? ==> IsNextClaim(old(rows), staleBefore, locked, claimed.value)
      ensures claimed.Some? ==> rows == Claimed(old(rows), claimed.value, now)
      ensures claimed.Some? ==> rows == old(rows)[claimed.value := old(rows)[claimed.value].(claimedAt := Some(now))]
    {
      claimed := None;
      var unseen := rows.Keys;
      while unseen != {}
        invariant unseen <= rows.Keys && rows == old(rows)
        invariant claimed.None? ==> forall id :: id in rows && id !in unseen && id !in locked ==> !Claimable(rows[id], staleBefore)
        invariant claimed.Some? ==> claimed.value in rows && claimed.value !in unseen && claimed.value !in locked
        invariant claimed.Some? ==> Claimable(rows[claimed.value], staleBefore)
        invariant claimed.Some? ==> forall id :: id in rows && id !in unseen && id !in locked && Claimable(rows[id], staleBefore) ==>
          rows[claimed.value].createdAt <= rows[id].createdAt
      {
        var id :| id in unseen;
        unseen := unseen - {id};
        if id !in locked && Claimable(rows[id], staleBefore)
          && (claimed.None? || rows[id].createdAt < rows[claimed.value].createdAt) {
          claimed := Some(id);
        }
      }
      if claimed.Some? {
        rows := rows[claimed.value := rows[claimed.value].(claimedAt := Some(now))];
      }
    }

    /** Phase 2b. A row that somebody else finished, or deleted, is left alone; another goes back and
        can be claimed at once, whatever its stale window. */
    method Release(id: RowId)
      modifies this
      ensures rows.Keys == old(rows).Keys
      ensures forall other :: other in rows && other != id ==> rows[other] == old(rows)[other]
      ensures id in rows ==> rows[id].createdAt == old(rows)[id].createdAt && rows[id].processedAt == old(rows)[id].processedAt
      ensures id in rows && rows[id].processedAt.Some? ==> rows[id] == old(rows)[id]
      ensures id in rows && rows[id].processedAt.None? ==>
                rows[id].claimedAt.None? && forall staleBefore :: Claimable(rows[id], staleBefore)
    {
      if id in rows && rows[id].processedAt.None? {
        rows := rows[id := rows[id].(claimedAt := None)];
      }
    }

    /** Phase 3. The row, if it still exists, is never claimable again; every other row is left alone. */
    method Mark(id: RowId, now: int)
      modifies this
      ensures rows.Keys == old(rows).Keys
      ensures forall other :: other in rows && other != id ==> rows[other] == old(rows)[other]
      ensures id in rows ==> rows[id].createdAt == old(rows)[id].createdAt
      ensures id in rows ==> rows[id].processedAt == Some(now) && rows[id].claimedAt.None?
      ensures id in rows ==> forall staleBefore :: !Claimable(rows[id], staleBefore)
    {
      if id in rows {
        rows := rows[id := rows[id].(claimedAt := None, processedAt := Some(now))];
      }
    }

    /** process_outbox_batch with nobody else at the table; answer says how the POST turns out. */
    method ProcessBatch(now: int, answer: bool) returns (claimed: Option<RowId>)
      modifies this
      ensures claimed.None? ==> rows == old(rows) && forall id :: id in rows ==> !Claimable(rows[id], now - STALE_AFTER)
      ensures claimed.Some? ==> IsNextClaim(old(rows), now - STALE_AFTER, {}, claimed.value)
      ensures rows.Keys == old(rows).Keys
      ensures forall id :: id in rows && claimed != Some(id) ==> rows[id] == old(rows)[id]
      ensures claimed.Some? ==> rows[claimed.value].createdAt == old(rows)[claimed.value].createdAt && rows[claimed.value].claimedAt.None?
      ensures claimed.Some? ==> rows[claimed.value].processedAt == if answer then Some(now) else None
      ensures claimed.Some? && answer ==> rows == Marked(old(rows), claimed.value, now)
      ensures claimed.Some? && !answer ==> rows == Released(old(rows), claimed.value)
    {
      claimed := Claim(now - STALE_AFTER, now, {});
      if claimed.Some? {
        if answer {
          Mark(claimed.value, now);
          assert rows == Marked(old(rows), claimed.value, now);
        } else {
          Release(claimed.value);
          assert rows == Released(old(rows), claimed.value);
        }
      }
    }

    /** One more delivery of a drain, or the reason to stop. */
    method DeliverNext(ghost before: Rows, ghost delivered: seq<RowId>, now: int, answer: bool) returns (claimed: Option<RowId>)
      requires Delivered(before, rows, delivered, now)
      modifies this
      ensures claimed.Some? ==> answer && Delivered(before, rows, delivered + [claimed.value], now)
      ensures claimed.None? ==> StoppedOn(old(rows), rows, answer, now)
    {
      ghost var mid := rows;
      claimed := ProcessBatch(now, answer);
      if claimed.Some? && !answer {
        return None;
      }
      if claimed.Some? {
        DeliveredOneMore(before, mid, delivered, claimed.value, now);
      }
    }

    /** One tick of drain_outbox with nobody else at the table: deliver until a POST fails, nothing
        is claimable or the batch is used up. answers says how the POSTs turn out, and mid is the table
        after the last delivery. */
    method Drain(now: int, answers: seq<bool>) returns (delivered: seq<RowId>, ghost mid: Rows)
      modifies this
      ensures |delivered| <= |answers| && forall i :: 0 <= i < |delivered| ==> answers[i]
      ensures Delivered(old(rows), mid, delivered, now) && Stopped(mid, rows, |delivered|, answers, now)
    {
      delivered, mid := [], rows;
      while |delivered| < |answers|
        invariant |delivered| <= |answers| && forall i :: 0 <= i < |delivered| ==> answers[i]
        invariant Delivered(old(rows), rows, delivered, now) && mid == rows
      {
        var claimed := DeliverNext(old(rows), delivered, now, answers[|delivered|]);
        if claimed.None? {
          return;
        }
        delivered, mid := delivered + [claimed.value], rows;
      }
    }
  }

  /** Rows leave oldest first, each once, marked and unclaimed; no other row changes. */
  ghost predicate Delivered(before: Rows, after: Rows, delivered: seq<RowId>, now: int) {
    && after.Keys == before.Keys
    && (forall id :: id in delivered ==> id in before && Claimable(before[id], now - STALE_AFTER))
    && (forall id :: id in delivered ==> after[id] == before[id].(claimedAt := None, processedAt := Some(now)))
    && (forall id :: id in after && id !in delivered ==> after[id] == before[id])
    && (forall i, j :: 0 <= i < j < |delivered| ==>
          delivered[i] != delivered[j] && before[delivered[i]].createdAt <= before[delivered[j]].createdAt)
    && (forall d, id :: d in delivered && id in after && Claimable(after[id], now - STALE_AFTER) ==>
          before[d].createdAt <= before[id].createdAt)
  }

  /** Why a drain ended after n deliveries: the batch is used up, nothing is claimable, or the
      next POST failed and its row was given back. */
  ghost predicate Stopped(mid: Rows, after: Rows, n: nat, answers: seq<bool>, now: int) {
    if n >= |answers| then after == mid else StoppedOn(mid, after, answers[n], now)
  }

  ghost predicate StoppedOn(mid: Rows, after: Rows, answer: bool, now: int) {
    || (after == mid && forall id :: id in after ==> !Claimable(after[id], now - STALE_AFTER))
    || (!answer && exists id :: IsNextClaim(mid, now - STALE_AFTER, {}, id) && after == mid[id := mid[id].(claimedAt := None)])
  }

  lemma {:induction false} DeliveredOneMore(before: Rows, mid: Rows, delivered: seq<RowId>, id: RowId, now: int)
    requires Delivered(before, mid, delivered, now) && IsNextClaim(mid, now - STALE_AFTER, {}, id)
    ensures Delivered(before, Marked(mid, id, now), delivered + [id], now)
  {
    var after := Marked(mid, id, now);
    assert id !in delivered;
    assert mid[id] == before[id];
    forall d, other | d in delivered + [id] && other in after && Claimable(after[other], now - STALE_AFTER)
      ensures before[d].createdAt <= before[other].createdAt
    {
      assert Claimable(mid[other], now - STALE_AFTER);
      assert other !in delivered;
    }
  }
}
