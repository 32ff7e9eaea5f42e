/** The transactional outbox: the producer's conflict-free insert, the relay's row transitions,
    and one drain cycle of the relay over the rows it has locked. */
module Outbox {
  import opened GradingRows

  datatype OutboxStatus = Pending | Published | GaveUp

  datatype OutboxRow = OutboxRow(status: OutboxStatus, attempts: nat, createdAt: nat)

  type Rows = map<SessionId, OutboxRow>

  predicate IsPending(rows: Rows, id: SessionId) {
    id in rows && rows[id].status == Pending
  }

  function Enqueued(rows: Rows, id: SessionId, now: nat): Rows {
    if id in rows then rows else rows[id := OutboxRow(Pending, 0, now)]
  }

  function MarkedPublished(rows: Rows, id: SessionId): Rows {
    if id in rows then rows[id := rows[id].(status := Published)] else rows
  }

  function MarkedRetryOrFailed(rows: Rows, id: SessionId, cap: nat): Rows {
    if id in rows then
      var status := if rows[id].attempts + 1 >= cap then GaveUp else Pending;
      rows[id := rows[id].(status := status, attempts := rows[id].attempts + 1)]
    else rows
  }

  ghost predicate Distinct(ids: seq<SessionId>) {
    forall i, j :: 0 <= i < j < |ids| ==> ids[i] != ids[j]
  }

  ghost predicate AllPending(rows: Rows, ids: seq<SessionId>) {
    forall i :: 0 <= i < |ids| ==> IsPending(rows, ids[i])
  }

  /** `FOR UPDATE SKIP LOCKED` with `ORDER BY created_at LIMIT limit`: pending rows no other
      transaction has locked, none older left behind, and fewer than the limit only when there
      are no others. */
  ghost predicate IsClaim(rows: Rows, locked: set<SessionId>, claim: seq<SessionId>, limit: nat) {
    && |claim| <= limit
    && Distinct(claim)
    && AllPending(rows, claim)
    && (forall i :: 0 <= i < |claim| ==> claim[i] !in locked)
    && (forall i, j :: 0 <= i < j < |claim| ==> rows[claim[i]].createdAt <= rows[claim[j]].createdAt)
    && (forall id :: IsPending(rows, id) && id !in locked && id !in claim ==>
          |claim| == limit && forall i :: 0 <= i < |claim| ==> rows[claim[i]].createdAt <= rows[id].createdAt)
  }

  /** The rows as the transaction sees them after the first |confirmed| publishes. */
  function Drained(rows: Rows, claim: seq<SessionId>, confirmed: seq<bool>, cap: nat): Rows
    requires |confirmed| <= |claim|
    decreases |confirmed|
  {
    if confirmed == [] then rows
    else
      var n := |confirmed| - 1;
      var before := Drained(rows, claim, confirmed[..n], cap);
      if confirmed[n] then MarkedPublished(before, claim[n])
      else MarkedRetryOrFailed(before, claim[n], cap)
  }

  function CountTrue(bs: seq<bool>): nat {
    if bs == [] then 0 else CountTrue(bs[..|bs| - 1]) + if bs[|bs| - 1] then 1 else 0
  }

  /** The one transition a claimed row makes, given how its own publish ended. */
  predicate Transition(was: OutboxRow, now: OutboxRow, confirmed: bool, cap: nat) {
    if confirmed then now == was.(status := Published)
    else
      && now.createdAt == was.createdAt
      && now.attempts == was.attempts + 1
      && now.status == if was.attempts + 1 >= cap then GaveUp else Pending
  }

  /** What a drain does row by row: each claimed row makes exactly one transition, decided by
      its own publish alone, and no other row moves. */
  lemma {:induction false} DrainedPointwise(rows: Rows, claim: seq<SessionId>, confirmed: seq<bool>, cap: nat)
    requires |confirmed| <= |claim|
    requires Distinct(claim)
    requires AllPending(rows, claim)
    ensures var after := Drained(rows, claim, confirmed, cap);
            && after.Keys == rows.Keys
            && (forall i :: 0 <= i < |confirmed| ==>
                  && IsPending(rows, claim[i])
                  && Transition(rows[claim[i]], after[claim[i]], confirmed[i], cap))
            && (forall id :: id in rows && id !in claim[..|confirmed|] ==> after[id] == rows[id])
    decreases |confirmed|
  {
    if confirmed != [] {
      var n := |confirmed| - 1;
      DrainedPointwise(rows, claim, confirmed[..n], cap);
      var before := Drained(rows, claim, confirmed[..n], cap);
      assert claim[n] in claim;
      assert claim[..n + 1] == claim[..n] + [claim[n]];
      assert claim[n] !in claim[..n];
      var after := Drained(rows, claim, confirmed, cap);
      forall i | 0 <= i < |confirmed|
        ensures IsPending(rows, claim[i]) && Transition(rows[claim[i]], after[claim[i]], confirmed[i], cap)
      {
        if i < n {
          assert claim[i] != claim[n] && confirmed[..n][i] == confirmed[i];
        }
      }
      forall id | id in rows && id !in claim[..n + 1]
        ensures after[id] == rows[id]
      {
        assert id !in claim[..n] && id != claim[n];
      }
    }
  }

  // ---- Attempts still to spend ----

  /** Publishing attempts a row may still use: zero unless it is pending. */
  function RowBudget(row: OutboxRow, cap: nat): nat {
    if row.status == Pending && row.attempts < cap then cap - row.attempts else 0
  }

  ghost function Budget(rows: Rows, cap: nat): nat
    decreases |rows|
  {
    if rows == map[] then 0
    else
      var id :| id in rows;
      RowBudget(rows[id], cap) + Budget(rows - {id}, cap)
  }

  lemma {:induction false} BudgetSplit(rows: Rows, id: SessionId, cap: nat)
    requires id in rows
    ensures Budget(rows, cap) == RowBudget(rows[id], cap) + Budget(rows - {id}, cap)
    decreases |rows|
  {
    var picked :| picked in rows && Budget(rows, cap) == RowBudget(rows[picked], cap) + Budget(rows - {picked}, cap);
    if picked != id {
      BudgetSplit(rows - {picked}, id, cap);
      BudgetSplit(rows - {id}, picked, cap);
      assert rows - {picked} - {id} == rows - {id} - {picked};
    }
  }

  lemma BudgetOfUpdate(rows: Rows, id: SessionId, row: OutboxRow, cap: nat)
    requires id in rows
    ensures Budget(rows[id := row], cap) + RowBudget(rows[id], cap) == Budget(rows, cap) + RowBudget(row, cap)
  {
    BudgetSplit(rows, id, cap);
    BudgetSplit(rows[id := row], id, cap);
    assert rows[id := row] - {id} == rows - {id};
  }

  lemma BudgetOfInsert(rows: Rows, id: SessionId, now: nat, cap: nat)
    ensures Budget(Enqueued(rows, id, now), cap) == Budget(rows, cap) + if id in rows then 0 else cap
  {
    if id !in rows {
      var after := Enqueued(rows, id, now);
      BudgetSplit(after, id, cap);
      assert after - {id} == rows;
    }
  }

  /** Every publish of a drain, confirmed or not, spends at least one remaining attempt. */
  lemma {:induction false} DrainSpendsBudget(rows: Rows, claim: seq<SessionId>, confirmed: seq<bool>, cap: nat)
    requires |confirmed| <= |claim|
    requires Distinct(claim)
    requires forall i :: 0 <= i < |claim| ==> IsPending(rows, claim[i]) && rows[claim[i]].attempts < cap
    ensures Budget(Drained(rows, claim, confirmed, cap), cap) + |confirmed| <= Budget(rows, cap)
    decreases |confirmed|
  {
    if confirmed != [] {
      var n := |confirmed| - 1;
      DrainSpendsBudget(rows, claim, confirmed[..n], cap);
      DrainedPointwise(rows, claim, confirmed[..n], cap);
      var before := Drained(rows, claim, confirmed[..n], cap);
      assert claim[n] in claim && claim[n] !in claim[..n];
      BudgetOfUpdate(before, claim[n], Drained(rows, claim, confirmed, cap)[claim[n]], cap);
    }
  }

  /** Nothing left to spend means nothing left pending, provided pending rows are below the cap. */
  lemma {:induction false} NoBudgetNoPending(rows: Rows, cap: nat)
    requires forall id :: IsPending(rows, id) ==> rows[id].attempts < cap
    ensures Budget(rows, cap) == 0 <==> forall id :: id in rows ==> !IsPending(rows, id)
    decreases |rows|
  {
    if rows != map[] {
      var id :| id in rows && Budget(rows, cap) == RowBudget(rows[id], cap) + Budget(rows - {id}, cap);
      var rest := rows - {id};
      assert forall k :: k in rest ==> k in rows && rest[k] == rows[k];
      NoBudgetNoPending(rest, cap);
      assert RowBudget(rows[id], cap) == 0 <==> !IsPending(rows, id);
      assert forall k :: k in rest ==> (IsPending(rest, k) <==> IsPending(rows, k));
      assert forall k :: k in rows ==> k == id || k in rest;
    }
  }

  class OutboxTable {
    var rows: Rows

    constructor ()
      ensures rows == map[]
    {
      rows := map[];
    }

    /** `ON CONFLICT DO NOTHING`, inside the transaction that completes the session. */
    method EnqueueSessionEvent(id: SessionId, now: nat)
      modifies this
      ensures rows == Enqueued(old(rows), id, now)
      ensures id in rows && forall k :: k in old(rows) ==> k in rows && rows[k] == old(rows)[k]
      ensures rows.Keys == old(rows).Keys + {id}
      ensures id !in old(rows) ==> rows[id].status == Pending && rows[id].attempts == 0 && rows[id].createdAt == now
    {
      if id !in rows {
        rows := rows[id := OutboxRow(Pending, 0, now)];
      }
    }

    method MarkSessionEventPublished(id: SessionId)
      modifies this
      ensures rows == MarkedPublished(old(rows), id)
      ensures rows.Keys == old(rows).Keys
      ensures forall k :: k in rows && k != id ==> rows[k] == old(rows)[k]
      ensures id in rows ==>
                && rows[id].status == Published
                && rows[id].attempts == old(rows)[id].attempts
                && rows[id].createdAt == old(rows)[id].createdAt
      ensures forall cap :: Budget(rows, cap) <= Budget(old(rows), cap)
    {
      forall cap
        ensures Budget(MarkedPublished(rows, id), cap) <= Budget(rows, cap)
      {
        if id in rows {
          BudgetOfUpdate(rows, id, rows[id].(status := Published), cap);
        }
      }
      if id in rows {
        rows := rows[id := rows[id].(status := Published)];
      }
    }

    /** One attempt is spent, the row stays in its place in the queue, and it is given up exactly
        when the cap is reached. */
    method MarkSessionEventRetryOrFailed(id: SessionId, cap: nat)
      modifies this
      ensures rows == MarkedRetryOrFailed(old(rows), id, cap)
      ensures rows.Keys == old(rows).Keys
      ensures forall k :: k in rows && k != id ==> rows[k] == old(rows)[k]
      ensures id in rows ==>
                && rows[id].attempts == old(rows)[id].attempts + 1
                && rows[id].createdAt == old(rows)[id].createdAt
                && (rows[id].status == GaveUp <==> rows[id].attempts >= cap)
                && (rows[id].status == Pending <==> rows[id].attempts < cap)
      ensures IsPending(old(rows), id) && old(rows)[id].attempts < cap ==> Budget(rows, cap) < Budget(old(rows), cap)
    {
      if id in rows {
        BudgetOfUpdate(rows, id, MarkedRetryOrFailed(rows, id, cap)[id], cap);
      }
      if id in rows {
        var row := rows[id];
        if row.attempts + 1 >= cap {
          rows := rows[id := OutboxRow(GaveUp, row.attempts + 1, row.createdAt)];
        } else {
          rows := rows[id := OutboxRow(Pending, row.attempts + 1, row.createdAt)];
        }
      }
    }

    /** One relay cycle: publish and mark each claimed row in turn. `confirmed[i]` is whether
        the i-th publish was confirmed within the timeout. */
    method RelayDrainOnce(claim: seq<SessionId>, confirmed: seq<bool>, cap: nat) returns (published: nat)
      requires |confirmed| == |claim|
      requires Distinct(claim)
      requires AllPending(rows, claim)
      modifies this
      ensures rows == Drained(old(rows), claim, confirmed, cap)
      ensures published == CountTrue(confirmed)
      ensures published <= |claim|
      ensures published == |claim| <==> forall i :: 0 <= i < |claim| ==> confirmed[i]
      ensures published == 0 <==> forall i :: 0 <= i < |claim| ==> !confirmed[i]
      ensures forall i :: 0 <= i < |claim| ==>
                claim[i] in rows && (rows[claim[i]].status == Published <==> confirmed[i])
      ensures forall id :: id in old(rows) && id !in claim ==> id in rows && rows[id] == old(rows)[id]
    {
      published := 0;
      var i := 0;
      while i < |claim|
        invariant 0 <= i <= |claim|
        invariant rows == Drained(old(rows), claim, confirmed[..i], cap)
        invariant published == CountTrue(confirmed[..i]) && published <= i
        invariant published == i <==> forall j :: 0 <= j < i ==> confirmed[j]
        invariant published == 0 <==> forall j :: 0 <= j < i ==> !confirmed[j]
      {
        assert confirmed[..i + 1][..i] == confirmed[..i];
        if confirmed[i] {
          MarkSessionEventPublished(claim[i]);
          published := published + 1;
        } else {
          MarkSessionEventRetryOrFailed(claim[i], cap);
        }
        i := i + 1;
      }
      assert confirmed[..i] == confirmed && claim[..i] == claim;
      DrainedPointwise(old(rows), claim, confirmed, cap);
    }
  }
}
