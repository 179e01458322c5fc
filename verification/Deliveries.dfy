/**
 The `deliveries` table (internal/store/sqlite.go, internal/store/migrations.go).

 Every SQL statement is one function from table to table. The table is a map from event id to row,
 so `event_id TEXT PRIMARY KEY` holds by construction; uniqueness of the idempotency key is checked
 by the insert, as the UNIQUE constraint does.
 */
module Deliveries {
  import opened Options

  type EventId = nat
  type Key = nat
  type Time = int

  datatype Status = Received | Queued | Sending | Delivered | RetryScheduled | Failed | DeadLetter

  /** The states rotation is allowed to touch. */
  predicate Terminal(s: Status) {
    s.Delivered? || s.Failed? || s.DeadLetter?
  }

  /** The status gate in the WHERE clause of ClaimForSend and of ListDueEventIDs. */
  predicate Claimable(s: Status) {
    s.Received? || s.Queued? || s.RetryScheduled?
  }

  datatype Row = Row(
    key: Key,
    status: Status,
    parts: seq<string>,
    splitCount: nat,
    sentParts: nat,
    attempts: nat,
    nextRetryAt: Option<Time>,
    messageId: Option<int>,
    createdAt: Time,
    updatedAt: Time,
    deliveredAt: Option<Time>)

  type Table = map<EventId, Row>

  function NewRow(key: Key, at: Time): Row {
    Row(key, Received, [], 0, 0, 0, None, None, at, at, None)
  }

  function QueuedRow(r: Row, retryAt: Time, now: Time): Row {
    r.(status := Queued, nextRetryAt := Some(retryAt), updatedAt := now)
  }

  function ClaimedRow(r: Row, at: Time): Row {
    r.(status := Sending, attempts := r.attempts + 1, updatedAt := at, nextRetryAt := None)
  }

  function RenderedRow(r: Row, parts: seq<string>, now: Time): Row {
    r.(parts := parts, splitCount := |parts|, updatedAt := now)
  }

  /** `id` is the Telegram message id for the first chunk and None for the others; COALESCE keeps an old id. */
  function ChunkRow(r: Row, sent: nat, id: Option<int>, now: Time): Row {
    r.(sentParts := sent, messageId := if r.messageId.Some? then r.messageId else id, updatedAt := now)
  }

  function DeliveredRow(r: Row, splitCount: nat, at: Time): Row {
    r.(status := Delivered, splitCount := splitCount, sentParts := splitCount, deliveredAt := Some(at),
       updatedAt := at, nextRetryAt := None)
  }

  function RetryRow(r: Row, retryAt: Time, now: Time): Row {
    r.(status := RetryScheduled, nextRetryAt := Some(retryAt), updatedAt := now)
  }

  function TerminalRow(r: Row, status: Status, now: Time): Row {
    r.(status := status, nextRetryAt := None, updatedAt := now)
  }

  /** UPDATE deliveries SET ... WHERE event_id = e: no row, no effect. */
  function Update(t: Table, e: EventId, f: Row -> Row): Table {
    if e in t then t[e := f(t[e])] else t
  }

  predicate KeyTaken(t: Table, key: Key) {
    exists e :: e in t && t[e].key == key
  }

  /** UPDATE deliveries SET status = queued ... WHERE status = sending. */
  function RequeueAll(t: Table, retryAt: Time, now: Time): Table {
    map e | e in t :: if t[e].status.Sending? then QueuedRow(t[e], retryAt, now) else t[e]
  }

  predicate Due(r: Row, at: Time) {
    Claimable(r.status) && (r.nextRetryAt.None? || r.nextRetryAt.value <= at)
  }

  function CreatedAt(rows: Table): map<EventId, Time> {
    map e | e in rows :: rows[e].createdAt
  }

  function UpdatedAt(rows: Table): map<EventId, Time> {
    map e | e in rows :: rows[e].updatedAt
  }

  function DueSet(t: Table, at: Time): set<EventId> {
    set e | e in t && Due(t[e], at)
  }

  predicate Rotatable(r: Row, deliveredBefore: Time, terminalBefore: Time) {
    (r.status.Delivered? && r.updatedAt <= deliveredBefore)
    || ((r.status.Failed? || r.status.DeadLetter?) && r.updatedAt <= terminalBefore)
  }

  function RotatableSet(t: Table, deliveredBefore: Time, terminalBefore: Time): set<EventId> {
    set e | e in t && Rotatable(t[e], deliveredBefore, terminalBefore)
  }
}
