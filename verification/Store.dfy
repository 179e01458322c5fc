/** The SQLite store as an object: its table, and one method per SQL statement (internal/store/sqlite.go). */
module Storage {
  import opened Options
  import opened Deliveries

  datatype Lookup = Found(e: EventId, row: Row) | Missing

  datatype CreateResult = Created | AlreadyExists | CreateError

  datatype ClaimResult = Claimed(row: Row) | NotClaimable | ClaimError

  /** ORDER BY rank ASC LIMIT n: the lowest-ranked candidates, in order. */
  predicate Lowest(ids: seq<EventId>, candidates: set<EventId>, rank: map<EventId, Time>, limit: nat) {
    && candidates <= rank.Keys
    && |ids| == (if |candidates| < limit then |candidates| else limit)
    && (forall i :: 0 <= i < |ids| ==> ids[i] in candidates)
    && (forall i, j :: 0 <= i < j < |ids| ==> ids[i] != ids[j] && rank[ids[i]] <= rank[ids[j]])
    && (forall i, e :: 0 <= i < |ids| && e in candidates && e !in ids ==> rank[ids[i]] <= rank[e])
  }

  lemma {:induction false} SomeLowest(ids: set<EventId>, rank: map<EventId, Time>)
    requires ids != {} && ids <= rank.Keys
    ensures exists e :: e in ids && forall x :: x in ids ==> rank[e] <= rank[x]
  {
    var e :| e in ids;
    var rest := ids - {e};
    if rest != {} {
      SomeLowest(rest, rank);
      var f :| f in rest && forall x :: x in rest ==> rank[f] <= rank[x];
      if rank[e] <= rank[f] {
        assert forall x :: x in ids ==> rank[e] <= rank[x];
      } else {
        assert forall x :: x in ids ==> rank[f] <= rank[x];
      }
    } else {
      assert ids == rest + {e};
    }
  }

  function Ids(ids: seq<EventId>): set<EventId> {
    set i | 0 <= i < |ids| :: ids[i]
  }

  lemma IdsCount(ids: seq<EventId>)
    requires forall i, j :: 0 <= i < j < |ids| ==> ids[i] != ids[j]
    ensures |Ids(ids)| == |ids|
  {
    if ids != [] {
      var front, last := ids[..|ids| - 1], ids[|ids| - 1];
      IdsCount(front);
      assert Ids(ids) == Ids(front) + {last};
    } else {
      assert Ids(ids) == {};
    }
  }

  lemma SubsetCount(a: set<EventId>, b: set<EventId>)
    requires a <= b
    ensures |a| <= |b|
  {
    assert b == a + (b - a);
  }

  /** The candidates that come before b. */
  function Before(candidates: set<EventId>, rank: map<EventId, Time>, b: EventId): set<EventId>
    requires candidates <= rank.Keys && b in rank
  {
    set e | e in candidates && rank[e] < rank[b]
  }

  lemma ListedHasFewBefore(ids: seq<EventId>, candidates: set<EventId>, rank: map<EventId, Time>, limit: nat, i: nat)
    requires Lowest(ids, candidates, rank, limit) && i < |ids|
    ensures |Before(candidates, rank, ids[i])| < limit
  {
    forall e | e in Before(candidates, rank, ids[i])
      ensures e in Ids(ids[..i])
    {
      var j :| 0 <= j < |ids| && ids[j] == e;
      assert ids[..i][j] == e;
    }
    SubsetCount(Before(candidates, rank, ids[i]), Ids(ids[..i]));
    IdsCount(ids[..i]);
  }

  lemma UnlistedHasManyBefore(ids: seq<EventId>, candidates: set<EventId>, rank: map<EventId, Time>, limit: nat, b: EventId)
    requires Lowest(ids, candidates, rank, limit) && b in candidates && b !in ids
    requires forall e :: e in candidates && e != b ==> rank[e] != rank[b]
    ensures |Before(candidates, rank, b)| >= limit
  {
    IdsCount(ids);
    SubsetCount(Ids(ids), Before(candidates, rank, b));
    SubsetCount(Ids(ids) + {b}, candidates);
  }

  /** Which events a limited, ordered query lists: b exactly when fewer than `limit` candidates come before it. */
  lemma ListedIff(ids: seq<EventId>, candidates: set<EventId>, rank: map<EventId, Time>, limit: nat, b: EventId)
    requires Lowest(ids, candidates, rank, limit) && b in candidates
    requires forall e :: e in candidates && e != b ==> rank[e] != rank[b]
    ensures b in ids <==> |Before(candidates, rank, b)| < limit
  {
    if b in ids {
      var i: nat :| i < |ids| && ids[i] == b;
      ListedHasFewBefore(ids, candidates, rank, limit, i);
    } else {
      UnlistedHasManyBefore(ids, candidates, rank, limit, b);
    }
  }

  method SelectLowest(candidates: set<EventId>, rank: map<EventId, Time>, limit: nat) returns (ids: seq<EventId>)
    requires candidates <= rank.Keys
    ensures Lowest(ids, candidates, rank, limit)
  {
    ids := [];
    var rest := candidates;
    while rest != {} && |ids| < limit
      invariant |ids| <= limit && |ids| + |rest| == |candidates|
      invariant rest <= candidates && (forall e :: e in candidates <==> e in rest || e in ids)
      invariant forall i :: 0 <= i < |ids| ==> ids[i] !in rest
      invariant forall i, j :: 0 <= i < j < |ids| ==> ids[i] != ids[j] && rank[ids[i]] <= rank[ids[j]]
      invariant forall i, e :: 0 <= i < |ids| && e in rest ==> rank[ids[i]] <= rank[e]
      decreases rest
    {
      SomeLowest(rest, rank);
      var e :| e in rest && forall x :: x in rest ==> rank[e] <= rank[x];
      ids := ids + [e];
      rest := rest - {e};
    }
  }

  lemma IdsAppend(xs: seq<EventId>, ys: seq<EventId>)
    ensures Ids(xs + ys) == Ids(xs) + Ids(ys)
  {
    forall e | e in Ids(ys)
      ensures e in Ids(xs + ys)
    {
      var i :| 0 <= i < |ys| && ys[i] == e;
      assert (xs + ys)[|xs| + i] == e;
    }
    forall e | e in Ids(xs)
      ensures e in Ids(xs + ys)
    {
      var i :| 0 <= i < |xs| && xs[i] == e;
      assert (xs + ys)[i] == e;
    }
  }

  /** A webhook not sent yet whose time has come; a row that never had a retry time is due at once. */
  predicate IsDue(r: Row, at: Time) {
    r.status in {Received, Queued, RetryScheduled} && match r.nextRetryAt case None => true case Some(t) => t <= at
  }

  /** Delivered by the first cutoff, or failed or dead by the second. */
  predicate IsOld(r: Row, deliveredBefore: Time, terminalBefore: Time) {
    match r.status
    case Delivered => r.updatedAt <= deliveredBefore
    case Failed => r.updatedAt <= terminalBefore
    case DeadLetter => r.updatedAt <= terminalBefore
    case _ => false
  }

  lemma LowestAll(ids: seq<EventId>, candidates: set<EventId>, rank: map<EventId, Time>, limit: nat, e: EventId)
    requires Lowest(ids, candidates, rank, limit) && e in candidates && e !in ids
    ensures |ids| == limit
  {
    if |candidates| < limit {
      IdsCount(ids);
      SubsetCount(Ids(ids) + {e}, candidates);
    }
  }

  class Store {
    var rows: Table

    constructor ()
      ensures rows == map[]
    {
      rows := map[];
    }

    method GetByIdempotencyKey(key: Key) returns (r: Lookup)
      ensures r.Missing? <==> !KeyTaken(rows, key)
      ensures r.Found? ==> r.e in rows && rows[r.e] == r.row && r.row.key == key
    {
      if KeyTaken(rows, key) {
        var e :| e in rows && rows[e].key == key;
        return Found(e, rows[e]);
      }
      return Missing;
    }

    /** INSERT; `io` is false when the statement fails for a reason other than uniqueness. */
    method CreateReceived(e: EventId, key: Key, at: Time, io: bool) returns (r: CreateResult)
      modifies this
      ensures r.Created? <==> io && e !in old(rows) && !KeyTaken(old(rows), key)
      ensures r.AlreadyExists? <==> io && (e in old(rows) || KeyTaken(old(rows), key))
      ensures rows == if r.Created? then old(rows)[e := NewRow(key, at)] else old(rows)
      ensures r.Created? ==> e !in old(rows) && forall x :: x in old(rows) ==> old(rows)[x].key != key
      ensures r.Created? ==> rows[e] == Row(key, Received, [], 0, 0, 0, None, None, at, at, None)
    {
      if !io {
        return CreateError;
      }
      if e in rows || KeyTaken(rows, key) {
        return AlreadyExists;
      }
      rows := rows[e := NewRow(key, at)];
      return Created;
    }

    /** Every UPDATE by event id; a failed one leaves the table as it was. */
    method MarkQueued(e: EventId, retryAt: Time, now: Time, io: bool)
      modifies this
      ensures rows == if io then Update(old(rows), e, r => QueuedRow(r, retryAt, now)) else old(rows)
      ensures rows == if io && e in old(rows) then old(rows)[e := old(rows)[e].(status := Queued, nextRetryAt := Some(retryAt), updatedAt := now)] else old(rows)
    {
      if io && e in rows {
        rows := rows[e := QueuedRow(rows[e], retryAt, now)];
      }
    }

    method ClaimForSend(e: EventId, at: Time, io: bool) returns (r: ClaimResult)
      modifies this
      ensures r.Claimed? <==> io && e in old(rows) && Claimable(old(rows)[e].status)
      ensures r.NotClaimable? <==> io && !(e in old(rows) && Claimable(old(rows)[e].status))
      ensures r.Claimed? ==> r.row == ClaimedRow(old(rows)[e], at)
      ensures r.Claimed? <==> io && e in old(rows) && old(rows)[e].status in {Received, Queued, RetryScheduled}
      ensures r.Claimed? ==> r.row == old(rows)[e].(status := Sending, attempts := old(rows)[e].attempts + 1, updatedAt := at, nextRetryAt := None)
      ensures rows == if r.Claimed? then old(rows)[e := r.row] else old(rows)
    {
      if !io {
        return ClaimError;
      }
      if e in rows && Claimable(rows[e].status) {
        rows := rows[e := ClaimedRow(rows[e], at)];
        return Claimed(rows[e]);
      }
      return NotClaimable;
    }

    method SaveRenderedParts(e: EventId, parts: seq<string>, now: Time, io: bool)
      modifies this
      ensures rows == if io then Update(old(rows), e, r => RenderedRow(r, parts, now)) else old(rows)
      ensures rows == if io && e in old(rows) then old(rows)[e := old(rows)[e].(parts := parts, splitCount := |parts|, updatedAt := now)] else old(rows)
    {
      if io && e in rows {
        rows := rows[e := RenderedRow(rows[e], parts, now)];
      }
    }

    method MarkChunkSent(e: EventId, sent: nat, id: Option<int>, now: Time, io: bool)
      modifies this
      ensures rows == if io then Update(old(rows), e, r => ChunkRow(r, sent, id, now)) else old(rows)
      ensures rows == if io && e in old(rows) then old(rows)[e := old(rows)[e].(sentParts := sent, updatedAt := now,
                messageId := if old(rows)[e].messageId.Some? then old(rows)[e].messageId else id)] else old(rows)
    {
      if io && e in rows {
        rows := rows[e := ChunkRow(rows[e], sent, id, now)];
      }
    }

    method MarkDelivered(e: EventId, splitCount: nat, at: Time, io: bool)
      modifies this
      ensures rows == if io then Update(old(rows), e, r => DeliveredRow(r, splitCount, at)) else old(rows)
      ensures rows == if io && e in old(rows) then old(rows)[e := old(rows)[e].(status := Delivered, splitCount := splitCount, sentParts := splitCount,
                deliveredAt := Some(at), updatedAt := at, nextRetryAt := None)] else old(rows)
    {
      if io && e in rows {
        rows := rows[e := DeliveredRow(rows[e], splitCount, at)];
      }
    }

    method ScheduleRetry(e: EventId, retryAt: Time, now: Time, io: bool)
      modifies this
      ensures rows == if io then Update(old(rows), e, r => RetryRow(r, retryAt, now)) else old(rows)
      ensures rows == if io && e in old(rows) then old(rows)[e := old(rows)[e].(status := RetryScheduled, nextRetryAt := Some(retryAt), updatedAt := now)] else old(rows)
    {
      if io && e in rows {
        rows := rows[e := RetryRow(rows[e], retryAt, now)];
      }
    }

    /** MarkFailed and MarkDeadLetter. */
    method MarkTerminal(e: EventId, status: Status, now: Time, io: bool)
      modifies this
      ensures rows == if io then Update(old(rows), e, r => TerminalRow(r, status, now)) else old(rows)
      ensures rows == if io && e in old(rows) then old(rows)[e := old(rows)[e].(status := status, nextRetryAt := None, updatedAt := now)] else old(rows)
    {
      if io && e in rows {
        rows := rows[e := TerminalRow(rows[e], status, now)];
      }
    }

    method RequeueSending(retryAt: Time, now: Time)
      modifies this
      ensures rows == RequeueAll(old(rows), retryAt, now)
      ensures rows.Keys == old(rows).Keys
      ensures forall e :: e in rows ==>
                rows[e] == if old(rows)[e].status.Sending? then old(rows)[e].(status := Queued, nextRetryAt := Some(retryAt), updatedAt := now)
                           else old(rows)[e]
    {
      rows := RequeueAll(rows, retryAt, now);
    }

    /** The oldest due rows first. */
    method ListDueEventIDs(at: Time, limit: nat) returns (ids: seq<EventId>)
      ensures Lowest(ids, DueSet(rows, at), CreatedAt(rows), limit)
      ensures |ids| <= limit && forall i, j :: 0 <= i < j < |ids| ==> ids[i] != ids[j]
      ensures forall i :: 0 <= i < |ids| ==> ids[i] in rows && IsDue(rows[ids[i]], at)
      ensures forall i, j :: 0 <= i < j < |ids| ==> rows[ids[i]].createdAt <= rows[ids[j]].createdAt
      ensures forall e :: e in rows && IsDue(rows[e], at) && e !in ids ==>
                |ids| == limit && forall i :: 0 <= i < |ids| ==> rows[ids[i]].createdAt <= rows[e].createdAt
    {
      ids := SelectLowest(DueSet(rows, at), CreatedAt(rows), limit);
      forall e | e in DueSet(rows, at) && e !in ids
        ensures |ids| == limit
      {
        LowestAll(ids, DueSet(rows, at), CreatedAt(rows), limit, e);
      }
    }

    /** The final rows that changed last longest ago first. */
    method SelectRotatable(deliveredBefore: Time, terminalBefore: Time, limit: nat) returns (ids: seq<EventId>)
      ensures Lowest(ids, RotatableSet(rows, deliveredBefore, terminalBefore), UpdatedAt(rows), limit)
      ensures |ids| <= limit && forall i, j :: 0 <= i < j < |ids| ==> ids[i] != ids[j]
      ensures forall i :: 0 <= i < |ids| ==> ids[i] in rows && IsOld(rows[ids[i]], deliveredBefore, terminalBefore)
      ensures forall i, j :: 0 <= i < j < |ids| ==> rows[ids[i]].updatedAt <= rows[ids[j]].updatedAt
      ensures forall e :: e in rows && IsOld(rows[e], deliveredBefore, terminalBefore) && e !in ids ==>
                |ids| == limit && forall i :: 0 <= i < |ids| ==> rows[ids[i]].updatedAt <= rows[e].updatedAt
    {
      ids := SelectLowest(RotatableSet(rows, deliveredBefore, terminalBefore), UpdatedAt(rows), limit);
      forall e | e in RotatableSet(rows, deliveredBefore, terminalBefore) && e !in ids
        ensures |ids| == limit
      {
        LowestAll(ids, RotatableSet(rows, deliveredBefore, terminalBefore), UpdatedAt(rows), limit, e);
      }
    }

    /** DELETE in batches of 500; a failing batch stops the rest. */
    method DeleteByEventIDs(ids: seq<EventId>, io: nat -> bool) returns (ok: bool, gone: nat)
      modifies this
      ensures gone <= |ids| && rows == old(rows) - Ids(ids[..gone])
      ensures ok ==> gone == |ids|
      ensures !ok ==> gone < |ids| && gone % 500 == 0 && !io(gone / 500)
      ensures forall k :: 0 <= k && 500 * k < gone ==> io(k)
      ensures (forall k :: io(k)) ==> ok
    {
      var i := 0;
      assert Ids(ids[..0]) == {};
      while i < |ids|
        invariant 0 <= i <= |ids| && rows == old(rows) - Ids(ids[..i])
        invariant i == |ids| || i % 500 == 0
        invariant forall k :: 0 <= k && 500 * k < i ==> io(k)
        decreases |ids| - i
      {
        var end := if i + 500 > |ids| then |ids| else i + 500;
        if !io(i / 500) {
          return false, i;
        }
        rows := rows - Ids(ids[i..end]);
        assert ids[..end] == ids[..i] + ids[i..end];
        IdsAppend(ids[..i], ids[i..end]);
        i := end;
      }
      return true, i;
    }
  }

  lemma IdsNext(ids: seq<EventId>, k: nat)
    requires k < |ids|
    ensures Ids(ids[..k + 1]) == Ids(ids[..k]) + {ids[k]}
  {
  }

  lemma IdsPrefix(ids: seq<EventId>, k: nat)
    requires k <= |ids|
    ensures Ids(ids[..k]) <= Ids(ids)
  {
  }
}
