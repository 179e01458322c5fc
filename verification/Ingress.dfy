/** Webhook ingress: lookup by key, insert, queue, first delivery attempt (internal/service/alert_service.go:46-162). */
module Ingress {
  import opened Options
  import opened Deliveries
  import opened Storage
  import opened Outbox
  import opened OutboxInvariant
  import opened OutboxTheorems
  import opened Interference
  import opened Attempts
  import opened RotationRuns
  import opened Delivery

  /**
   What the others do: before the capacity check and before the lookup of each round (arrivals, lookups),
   between the i-th lookup and its insert (races[i]), before MarkQueued (between), and between the
   attempt and the reload (reloads). The finite list of races says how often the key can be taken from
   under the handler.
   */
  datatype AcceptEnv = AcceptEnv(
    arrivals: nat -> seq<Action>,
    capacity: nat -> CapacityEnv,
    lookups: nat -> seq<Action>,
    races: seq<seq<Action>>,
    between: seq<Action>,
    reloads: seq<Action>,
    lookupOk: nat -> bool,
    createOk: nat -> bool,
    queueOk: bool,
    reloadOk: bool,
    attempt: Env)

  /** StoreFull is the 503 of a failed capacity check. */
  datatype Answer = Answered(code: int, e: EventId, status: Status, duplicate: bool) | InternalError | StoreFull

  /** The check of the capacity passes. */
  ghost predicate Roomy(limits: Limits, env: CapacityEnv) {
    env.first.Some? && (env.first.value < limits.high
                        || (SmoothRotation(env.rotation) && env.second.Some? && env.second.value <= limits.max))
  }

  /** No statement of the handler itself fails and the store has room; deliveries may still fail, and others do what they like. */
  ghost predicate Healthy(limits: Limits, env: AcceptEnv) {
    (forall k :: Roomy(limits, env.capacity(k)) && env.lookupOk(k) && env.createOk(k)) && env.queueOk && env.reloadOk
  }

  /** The store is too full, or cannot be measured. */
  predicate Refuses(limits: Limits, env: CapacityEnv) {
    env.first.None? || (env.first.value >= limits.high && (env.second.None? || env.second.value > limits.max))
  }

  /** Nobody else acts between the insert and the reload, but while the handler owns the row. */
  predicate Alone(env: AcceptEnv) {
    env.between == [] && env.reloads == [] && env.attempt.others(0) == []
  }

  /** Nobody else acts during the call. */
  ghost predicate Lonely(env: AcceptEnv) {
    && Alone(env) && env.races == []
    && (forall k :: env.arrivals(k) == [] && env.lookups(k) == [])
    && (forall k :: env.capacity(k).waiting == [] && LonelyRotation(env.capacity(k).rotation))
  }

  /** 200 for a final status; otherwise 502 for a new event whose first attempt ended in a retry, and 202. */
  predicate CodeFits(r: Answer, first: bool) {
    r.Answered? &&
    match r.status
    case Delivered => r.code == 200
    case Failed => r.code == 200
    case DeadLetter => r.code == 200
    case RetryScheduled => r.code == if first then 502 else 202
    case _ => r.code == 202
  }

  lemma KeyStep(cfg: Config, s: State, a: Action, e: EventId)
    requires e in s.hist
    ensures e in Step(cfg, s, a).hist && Step(cfg, s, a).hist[e].key == s.hist[e].key
  {
  }

  lemma {:induction false} KeyStays(cfg: Config, s: State, acts: seq<Action>, e: EventId)
    requires e in s.hist
    ensures e in After(cfg, s, acts).hist && After(cfg, s, acts).hist[e].key == s.hist[e].key
    decreases |acts|
  {
    if acts != [] {
      KeyStep(cfg, s, acts[0], e);
      KeyStays(cfg, Step(cfg, s, acts[0]), acts[1..], e);
    }
  }

  lemma KeyKept(cfg: Config, r1: seq<Action>, s1: State, r2: seq<Action>, s2: State, e: EventId)
    requires Reached(cfg, INIT, r1, s1) && Reached(cfg, INIT, r2, s2) && r1 <= r2 && e in s1.hist
    ensures e in s2.hist && s2.hist[e].key == s1.hist[e].key
  {
    assert r2 == r1 + r2[|r1|..];
    AfterConcat(cfg, INIT, r1, r2[|r1|..]);
    KeyStays(cfg, s1, r2[|r1|..], e);
  }

  lemma KeysGrow(cfg: Config, r1: seq<Action>, s1: State, r2: seq<Action>, s2: State)
    requires Reached(cfg, INIT, r1, s1) && Reached(cfg, INIT, r2, s2) && r1 <= r2
    ensures s1.hist.Keys <= s2.hist.Keys
  {
    forall e | e in s1.hist
      ensures e in s2.hist
    {
      KeyKept(cfg, r1, s1, r2, s2, e);
    }
  }

  /** What was in the table later was there before, or came in since. */
  lemma ThereOrNew(cfg: Config, r1: seq<Action>, s1: State, r2: seq<Action>, s2: State, e: EventId)
    requires ValidConfig(cfg) && Reached(cfg, INIT, r1, s1) && Reached(cfg, INIT, r2, s2) && r1 <= r2
    requires e in s2.rows || e !in s2.hist
    ensures e in s1.rows || e !in s1.hist
  {
    ReachedInv(cfg, r1, s1);
    ReachedBetween(cfg, r1, s1, r2, s2);
    RunKeeps(cfg, s1, r2[|r1|..]);
  }

  /** The k-th step of the run is the insert of e under this key by handler w. */
  predicate InsertsAt(cfg: Config, run: seq<Action>, k: nat, w: WorkerId, e: EventId, key: Key) {
    && k < |run| && run[k].Create? && run[k].w == w && run[k].e == e && run[k].key == key
    && Enabled(cfg, After(cfg, INIT, run[..k]), run[k])
  }

  /** Handler w inserted e under this key as the i-th step, and queued it as the j-th. */
  predicate SubmitsAt(cfg: Config, run: seq<Action>, i: nat, j: nat, w: WorkerId, e: EventId, key: Key) {
    InsertsAt(cfg, run, i, w, e, key) && i < j < |run| && run[j] == MarkQueued(w, true)
  }

  /** Handler w did so at or after the first `past` steps, and claimed e after that if its claim statement runs. */
  ghost predicate SubmittedSince(cfg: Config, run: seq<Action>, past: nat, w: WorkerId, e: EventId, key: Key, claims: bool) {
    exists i: nat, j: nat :: past <= i && SubmitsAt(cfg, run, i, j, w, e, key) && (claims ==> ClaimedSince(run, j + 1, w, e))
  }

  lemma InsertsStays(cfg: Config, run: seq<Action>, run': seq<Action>, k: nat, w: WorkerId, e: EventId, key: Key)
    requires InsertsAt(cfg, run, k, w, e, key) && run <= run'
    ensures InsertsAt(cfg, run', k, w, e, key)
  {
    assert run'[..k] == run[..k];
  }

  lemma SubmittedStays(cfg: Config, run: seq<Action>, run': seq<Action>, past: nat, past': nat, w: WorkerId, e: EventId, key: Key, claims: bool)
    requires SubmittedSince(cfg, run, past, w, e, key, claims) && run <= run' && past' <= past
    ensures SubmittedSince(cfg, run', past', w, e, key, claims)
  {
    var i: nat, j: nat :| past <= i && SubmitsAt(cfg, run, i, j, w, e, key) && (claims ==> ClaimedSince(run, j + 1, w, e));
    InsertsStays(cfg, run, run', i, w, e, key);
    if claims {
      ClaimedStays(run, run', j + 1, j + 1, w, e);
    }
    assert SubmitsAt(cfg, run', i, j, w, e, key);
  }

  lemma InsertsLast(cfg: Config, run: seq<Action>, s: State, w: WorkerId, e: EventId, key: Key, at: Time)
    requires Reached(cfg, INIT, run, s) && Enabled(cfg, s, Create(w, e, key, at))
    ensures InsertsAt(cfg, run + [Create(w, e, key, at)], |run|, w, e, key)
  {
    assert (run + [Create(w, e, key, at)])[..|run|] == run;
  }

  /** The longest part of the run after which the MarkQueued of w is harmless. */
  function GatedPart(cfg: Config, s: State, w: WorkerId, trace: seq<Action>): (r: seq<Action>)
    requires Disciplined(cfg, s, trace) && Gate(s, MarkQueued(w, true))
    ensures r <= trace && Disciplined(cfg, s, r) && Gate(After(cfg, s, r), MarkQueued(w, true))
    decreases |trace|
  {
    if trace == [] || Gate(After(cfg, s, trace), MarkQueued(w, true)) then trace
    else
      assert trace == trace[..|trace| - 1] + [trace[|trace| - 1]];
      AfterConcat(cfg, s, trace[..|trace| - 1], [trace[|trace| - 1]]);
      GatedPart(cfg, s, w, trace[..|trace| - 1])
  }

  /** A freshly inserted row may be queued. */
  lemma FreshGate(cfg: Config, s: State, w: WorkerId, e: EventId, key: Key, at: Time)
    requires Inv(cfg, s) && Enabled(cfg, s, Create(w, e, key, at))
    ensures Gate(Step(cfg, s, Create(w, e, key, at)), MarkQueued(w, true))
  {
    forall v | v in s.workers && s.workers[v].Owning?
      ensures s.workers[v].own.ev != e
    {
      assert WorkerFits(s, v) && HolderFits(s, s.workers[v].own.ev);
    }
  }

  lemma {:induction false} Above(ids: set<EventId>) returns (top: EventId)
    ensures forall e :: e in ids ==> e < top
  {
    if ids == {} {
      top := 0;
    } else {
      var e :| e in ids;
      var below := Above(ids - {e});
      top := if below > e then below else e + 1;
      assert forall x :: x in ids ==> x in ids - {e} || x == e;
    }
  }

  lemma SomeFresh(hist: set<EventId>)
    ensures exists e: EventId :: e !in hist
  {
    var top := Above(hist);
    assert top !in hist by {
      assert top in hist ==> top < top;
    }
  }

  /** A row as MarkQueued leaves a new one. */
  predicate FreshlyQueued(row: Row) {
    row.status.Queued? && row.parts == [] && row.sentParts == 0 && row.attempts == 0
  }

  /** The answer to a webhook whose event was waiting: the status that this attempt leaves. */
  ghost predicate KnownAnswered(cfg: Config, env: Env, was: Row, r: Answer) {
    && r.Answered? && r.duplicate && CodeFits(r, false)
    && Resolved(cfg, env, Planned(env, was), was.sentParts, was.attempts + 1, r.status)
  }

  /** The answer to a webhook with a new event: the status that its first attempt leaves. */
  ghost predicate NewAnswered(cfg: Config, env: Env, r: Answer) {
    && r.Answered? && !r.duplicate && CodeFits(r, true)
    && Resolved(cfg, env, if env.message.Some? then env.message.value else [], 0, 1, r.status)
  }

  /** An answer as the reload gives it: the status of the row, 200 if it is final and else 202. */
  predicate Loaded(r: Answer, s: State, e: EventId) {
    e in s.rows ==> r.Answered? && r.status == s.rows[e].status && r.code == if r.status in {Delivered, Failed, DeadLetter} then 200 else 202
  }

  lemma KnownResolved(cfg: Config, env: Env, e: EventId, before: State, tried: State, attempt: Attempt, log: AttemptLog, r: Answer)
    requires AttemptRan(cfg, env, e, before, tried, attempt, log) && env.others(0) == [] && env.writes(0)
    requires e in before.rows && Claimable(before.rows[e].status) && Loaded(r, tried, e) && (r.Answered? ==> r.duplicate)
    ensures KnownAnswered(cfg, env, before.rows[e], r)
  {
    ClaimResolves(cfg, env, e, log.record, log.ending, before.now, tried);
  }

  lemma FirstResolved(cfg: Config, env: Env, e: EventId, before: State, tried: State, attempt: Attempt, log: AttemptLog, r: Answer)
    requires AttemptRan(cfg, env, e, before, tried, attempt, log) && env.others(0) == [] && env.writes(0)
    requires e in before.rows && FreshlyQueued(before.rows[e]) && Loaded(r, tried, e) && (r.Answered? ==> !r.duplicate)
    ensures r.Answered? && NewAnswered(cfg, env, if attempt.Errored? && r.status.RetryScheduled? then r.(code := 502) else r)
  {
    ClaimResolves(cfg, env, e, log.record, log.ending, before.now, tried);
  }

  class AlertService {
    const delivery: DeliveryService
    const limits: Limits

    constructor (delivery: DeliveryService, limits: Limits)
      ensures this.delivery == delivery && this.limits == limits
    {
      this.delivery := delivery;
      this.limits := limits;
    }

    /** Reads the row back and maps its status to the answer. */
    method LoadAcceptResult(e: EventId, duplicate: bool, io: bool) returns (r: Answer)
      requires delivery.Valid()
      ensures r.Answered? <==> io && e in delivery.sys.rows
      ensures !r.StoreFull?
      ensures r.Answered? ==>
                && r.e == e && r.duplicate == duplicate && r.status == delivery.sys.rows[e].status
                && r.code == (if Terminal(r.status) then 200 else 202)
                && (r.code == 200 <==> r.status in {Delivered, Failed, DeadLetter})
    {
      if !io || e !in delivery.store.rows {
        return InternalError;
      }
      var status := delivery.store.rows[e].status;
      if Terminal(status) {
        return Answered(200, e, status, duplicate);
      }
      return Answered(202, e, status, duplicate);
    }

    /** The answer is about a persisted event of this key, with the status its row has. */
    ghost predicate Answers(key: Key, r: Answer)
      reads delivery
    {
      r.Answered? ==>
        && r.e in delivery.sys.hist && delivery.sys.hist[r.e].key == key
        && r.e in delivery.sys.rows && delivery.sys.rows[r.e].status == r.status
        && (r.code == 200 <==> Terminal(r.status))
        && (r.code == 502 ==> r.status.RetryScheduled?)
    }

    /** An event of this key, in the table when the call came or inserted since, was rotated away, final and past its retention. */
    ghost predicate RotatedSince(key: Key, was: State)
      reads delivery
    {
      exists e :: e in delivery.sys.hist && delivery.sys.hist[e].key == key
                  && OutlivedBy(delivery.cfg, delivery.sys, e, delivery.sys.now) && (e in was.rows || e !in was.hist)
    }

    /** After an attempt on e: others run, then the row is read back. */
    method Reload(w: WorkerId, key: Key, e: EventId, duplicate: bool, env: AcceptEnv) returns (r: Answer)
      requires delivery.Valid() && delivery.sys.up && w !in delivery.sys.workers
      requires e in delivery.sys.hist && delivery.sys.hist[e].key == key
      modifies delivery, delivery.store
      ensures delivery.Valid() && delivery.sys.up && w !in delivery.sys.workers && old(delivery.run) <= delivery.run
      ensures Answers(key, r) && !r.StoreFull? && (r.Answered? ==> r.e == e && r.duplicate == duplicate && r.code != 502)
      ensures e in delivery.sys.hist && delivery.sys.hist[e].key == key
      ensures env.reloadOk ==> r.Answered? || OutlivedBy(delivery.cfg, delivery.sys, e, delivery.sys.now)
      ensures r.Answered? ==> env.reloadOk && r.code == if r.status in {Delivered, Failed, DeadLetter} then 200 else 202
      ensures env.reloads == [] && env.reloadOk && e in old(delivery.sys.rows) ==> r.Answered? && r.status == old(delivery.sys.rows)[e].status
    {
      delivery.Yield(w, env.reloads, a => Foreign(w, a));
      ReachedInv(delivery.cfg, delivery.run, delivery.sys);
      KeyKept(delivery.cfg, old(delivery.run), old(delivery.sys), delivery.run, delivery.sys, e);
      r := LoadAcceptResult(e, duplicate, env.reloadOk);
      if e !in delivery.sys.rows {
        NoLiveRecordLost(delivery.cfg, delivery.sys, e);
      }
    }

    /** A webhook whose key is already in the table: answer at once when it is final, otherwise try to send it. */
    method AcceptKnown(w: WorkerId, key: Key, e: EventId, env: AcceptEnv) returns (r: Answer)
      requires delivery.Valid() && delivery.sys.up && w !in delivery.sys.workers && Buildable(env.attempt)
      requires e in delivery.sys.rows && delivery.sys.rows[e].key == key
      modifies delivery, delivery.store
      ensures delivery.Valid() && delivery.sys.up && w !in delivery.sys.workers && old(delivery.run) <= delivery.run
      ensures Answers(key, r) && (r.Answered? ==> r.duplicate && r.e == e)
      ensures Terminal(old(delivery.sys.rows)[e].status) ==> r.Answered? && delivery.sys == old(delivery.sys)
      ensures env.reloadOk ==> r.Answered? || RotatedSince(key, old(delivery.sys))
      ensures !Terminal(old(delivery.sys.rows)[e].status) ==>
                && (r.Answered? ==> env.reloadOk)
                && (env.attempt.writes(0) ==> ClaimedSince(delivery.run, |old(delivery.run)|, w, e))
      ensures Alone(env) && env.reloadOk && env.attempt.writes(0) && Claimable(old(delivery.sys.rows)[e].status) ==>
                KnownAnswered(delivery.cfg, env.attempt, old(delivery.sys.rows)[e], r)
    {
      assert e in delivery.sys.hist && delivery.sys.hist[e].key == key by {
        ReachedInv(delivery.cfg, delivery.run, delivery.sys);
        assert EventFits(delivery.cfg, delivery.sys, e);
      }
      var status := delivery.store.rows[e].status;
      if Terminal(status) {
        return Answered(200, e, status, true);
      }
      ghost var past, before := delivery.run, delivery.sys;
      var attempt;
      ghost var log;
      attempt, log := delivery.ProcessEventByID(w, e, env.attempt);
      KeyKept(delivery.cfg, past, before, delivery.run, delivery.sys, e);
      ghost var middle, tried := delivery.run, delivery.sys;
      r := Reload(w, key, e, true, env);
      if env.attempt.writes(0) {
        ClaimedStays(middle, delivery.run, |past|, |past|, w, e);
      }
      if Alone(env) && env.reloadOk && env.attempt.writes(0) && Claimable(before.rows[e].status) {
        KnownResolved(delivery.cfg, env.attempt, e, before, tried, attempt, log, r);
      }
    }

    /** A fresh event id and the insert; others may have taken the key since the lookup. */
    method InsertNew(w: WorkerId, key: Key, race: seq<Action>, io: bool) returns (r: CreateResult, e: EventId, at: Time)
      requires delivery.Valid() && delivery.sys.up && w !in delivery.sys.workers && !KeyTaken(delivery.sys.rows, key)
      modifies delivery, delivery.store
      ensures delivery.Valid() && delivery.sys.up && old(delivery.run) <= delivery.run
      ensures r.AlreadyExists? ==> race != []
      ensures r.CreateError? <==> !io
      ensures !r.Created? ==> w !in delivery.sys.workers
      ensures r.Created? ==>
                && w in delivery.sys.workers && delivery.sys.workers[w] == Creating(e, at) && Gate(delivery.sys, MarkQueued(w, true))
                && e !in old(delivery.sys.hist) && e in delivery.sys.hist && delivery.sys.hist[e].key == key
                && e in delivery.sys.rows && delivery.sys.rows[e] == NewRow(key, at)
                && |old(delivery.run)| < |delivery.run| && InsertsAt(delivery.cfg, delivery.run, |delivery.run| - 1, w, e, key)
    {
      at := delivery.sys.now;
      delivery.Yield(w, race, a => Foreign(w, a));
      SomeFresh(delivery.sys.hist.Keys);
      e :| e !in delivery.sys.hist;
      KeysGrow(delivery.cfg, old(delivery.run), old(delivery.sys), delivery.run, delivery.sys);
      ReachedInv(delivery.cfg, delivery.run, delivery.sys);
      r := delivery.store.CreateReceived(e, key, at, io);
      if r.Created? {
        FreshGate(delivery.cfg, delivery.sys, w, e, key, at);
        InsertsLast(delivery.cfg, delivery.run, delivery.sys, w, e, key, at);
        delivery.Book(Create(w, e, key, at));
      }
    }

    /** MarkQueued. Others may claim the new row first, but have ended that claim, short of a final state, by then. */
    method QueueNew(w: WorkerId, e: EventId, at: Time, env: AcceptEnv) returns (ok: bool)
      requires delivery.Valid() && delivery.sys.up && w in delivery.sys.workers && delivery.sys.workers[w] == Creating(e, at)
      requires Gate(delivery.sys, MarkQueued(w, true))
      modifies delivery, delivery.store
      ensures delivery.Valid() && delivery.sys.up && w !in delivery.sys.workers && old(delivery.run) <= delivery.run
      ensures ok == env.queueOk
      ensures |old(delivery.run)| < |delivery.run| && delivery.run[|delivery.run| - 1] == MarkQueued(w, ok)
      ensures ok && e in delivery.sys.rows ==>
                delivery.sys.rows[e].status.Queued? && delivery.sys.rows[e].nextRetryAt == Some(at)
      ensures env.between == [] && ok && e in old(delivery.sys.rows) ==>
                && e in delivery.sys.rows
                && delivery.sys.rows[e] == old(delivery.sys.rows)[e].(status := Queued, nextRetryAt := Some(at), updatedAt := old(delivery.sys.now))
    {
      var trace := Played(delivery.cfg, a => Foreign(w, a), delivery.sys, env.between);
      delivery.Play(w, GatedPart(delivery.cfg, delivery.sys, w, trace));
      ok := env.queueOk;
      delivery.store.MarkQueued(e, at, delivery.sys.now, ok);
      delivery.Book(MarkQueued(w, ok));
    }

    lemma SubmittedBy(r0: seq<Action>, r1: seq<Action>, r2: seq<Action>, past: nat, w: WorkerId, e: EventId, key: Key, claims: bool)
      requires past < |r0| && r0 < r1 <= r2 <= delivery.run && InsertsAt(delivery.cfg, r0, |r0| - 1, w, e, key)
      requires r1[|r1| - 1] == MarkQueued(w, true) && (claims ==> ClaimedSince(r2, |r1|, w, e))
      ensures SubmittedSince(delivery.cfg, delivery.run, past, w, e, key, claims)
    {
      InsertsStays(delivery.cfg, r0, delivery.run, |r0| - 1, w, e, key);
      if claims {
        ClaimedStays(r2, delivery.run, |r1|, |r1|, w, e);
      }
      assert SubmitsAt(delivery.cfg, delivery.run, |r0| - 1, |r1| - 1, w, e, key);
    }

    /** The first attempt at a new event, inserted in state `inserted`, and the answer about it. */
    method FirstAttempt(w: WorkerId, key: Key, e: EventId, env: AcceptEnv, ghost past: nat, ghost run: seq<Action>, ghost inserted: State)
      returns (r: Answer)
      requires delivery.Valid() && delivery.sys.up && w !in delivery.sys.workers && Buildable(env.attempt)
      requires Reached(delivery.cfg, INIT, run, inserted) && run < delivery.run && past < |run|
      requires e in inserted.hist && inserted.hist[e].key == key && InsertsAt(delivery.cfg, run, |run| - 1, w, e, key)
      requires delivery.run[|delivery.run| - 1] == MarkQueued(w, true)
      modifies delivery, delivery.store
      ensures delivery.Valid() && delivery.sys.up && w !in delivery.sys.workers && old(delivery.run) <= delivery.run
      ensures Answers(key, r) && (r.Answered? ==> !r.duplicate && r.e == e && env.reloadOk)
      ensures SubmittedSince(delivery.cfg, delivery.run, past, w, e, key, env.attempt.writes(0))
      ensures e in delivery.sys.hist && delivery.sys.hist[e].key == key
      ensures env.reloadOk ==> r.Answered? || OutlivedBy(delivery.cfg, delivery.sys, e, delivery.sys.now)
      ensures Alone(env) && env.reloadOk && env.attempt.writes(0) && e in old(delivery.sys.rows) && FreshlyQueued(old(delivery.sys.rows)[e]) ==>
                NewAnswered(delivery.cfg, env.attempt, r)
    {
      KeyKept(delivery.cfg, run, inserted, delivery.run, delivery.sys, e);
      ghost var middle, before := delivery.run, delivery.sys;
      var attempt;
      ghost var log;
      attempt, log := delivery.ProcessEventByID(w, e, env.attempt);
      KeyKept(delivery.cfg, middle, before, delivery.run, delivery.sys, e);
      ghost var after, tried := delivery.run, delivery.sys;
      r := Reload(w, key, e, false, env);
      SubmittedBy(run, middle, after, past, w, e, key, env.attempt.writes(0));
      ghost var loaded := r;
      if attempt.Errored? && r.Answered? && r.status.RetryScheduled? {
        r := r.(code := 502);
      }
      if Alone(env) && env.reloadOk && env.attempt.writes(0) && e in before.rows && FreshlyQueued(before.rows[e]) {
        FirstResolved(delivery.cfg, env.attempt, e, before, tried, attempt, log, loaded);
      }
    }

    /** Insert, queue, first attempt. `retry` reports that the key was taken between the lookup and the insert. */
    method AcceptNew(w: WorkerId, key: Key, race: seq<Action>, env: AcceptEnv, depth: nat) returns (r: Answer, retry: bool)
      requires delivery.Valid() && delivery.sys.up && w !in delivery.sys.workers && Buildable(env.attempt)
      requires !KeyTaken(delivery.sys.rows, key)
      modifies delivery, delivery.store
      ensures delivery.Valid() && delivery.sys.up && w !in delivery.sys.workers && old(delivery.run) <= delivery.run
      ensures Answers(key, r)
      ensures r.Answered? ==> !r.duplicate && r.e !in old(delivery.sys.hist) && env.createOk(depth) && env.queueOk && env.reloadOk
      ensures r.Answered? ==> SubmittedSince(delivery.cfg, delivery.run, |old(delivery.run)|, w, r.e, key, env.attempt.writes(0))
      ensures retry ==> race != []
      ensures env.createOk(depth) && env.queueOk && env.reloadOk ==> retry || r.Answered? || RotatedSince(key, old(delivery.sys))
      ensures race == [] && Alone(env) && env.createOk(depth) && env.queueOk && env.reloadOk && env.attempt.writes(0) ==>
                NewAnswered(delivery.cfg, env.attempt, r)
    {
      var created, e, now := InsertNew(w, key, race, env.createOk(depth));
      if !created.Created? {
        return InternalError, created.AlreadyExists?;
      }
      ghost var past, inserted := delivery.run, delivery.sys;
      var queued := QueueNew(w, e, now, env);
      if !queued {
        return InternalError, false;
      }
      r := FirstAttempt(w, key, e, env, |old(delivery.run)|, past, inserted);
      retry := false;
    }

    /** Of the events of this key in the table `was`, the answer is about each of them, unless it has outlived its retention since. */
    ghost predicate Deduplicates(key: Key, was: Table, r: Answer)
      reads delivery
    {
      r.Answered? ==> forall e :: e in was && was[e].key == key ==>
        && e in delivery.sys.hist && r.e in delivery.sys.hist
        && ((r.e == e && r.duplicate) || OutlivedBy(delivery.cfg, delivery.sys, e, delivery.sys.hist[r.e].insertedAt))
    }

    /** A fresh event is never answered as a duplicate nor a known one as fresh: the rest is what the step system guarantees. */
    lemma AnswerDeduplicates(key: Key, past: seq<Action>, before: State, r: Answer)
      requires delivery.Valid() && Reached(delivery.cfg, INIT, past, before) && past <= delivery.run && Answers(key, r)
      requires r.Answered? && !r.duplicate ==> r.e !in before.hist
      ensures Deduplicates(key, before.rows, r)
    {
      ReachedInv(delivery.cfg, past, before);
      ReachedInv(delivery.cfg, delivery.run, delivery.sys);
      if r.Answered? {
        forall e | e in before.rows && before.rows[e].key == key
          ensures e in delivery.sys.hist
          ensures (r.e == e && r.duplicate) || OutlivedBy(delivery.cfg, delivery.sys, e, delivery.sys.hist[r.e].insertedAt)
        {
          assert EventFits(delivery.cfg, before, e);
          KeyKept(delivery.cfg, past, before, delivery.run, delivery.sys, e);
          if r.e != e {
            DedupOverTime(delivery.cfg, delivery.sys, e, r.e);
          }
        }
      }
    }

    lemma StillRotatedSince(key: Key, r1: seq<Action>, s1: State, r2: seq<Action>, s2: State)
      requires ValidConfig(delivery.cfg) && Reached(delivery.cfg, INIT, r1, s1) && Reached(delivery.cfg, INIT, r2, s2) && r1 <= r2
      ensures RotatedSince(key, s2) ==> RotatedSince(key, s1)
    {
      forall e | e in s2.rows || e !in s2.hist
        ensures e in s1.rows || e !in s1.hist
      {
        ThereOrNew(delivery.cfg, r1, s1, r2, s2, e);
      }
    }

    /** What every answer tells: whose it is, and what this handler did for it since the first `past` steps. */
    ghost predicate Accounted(past: nat, was: State, w: WorkerId, key: Key, env: AcceptEnv, r: Answer)
      reads delivery
    {
      && Answers(key, r)
      && (r.Answered? && !r.duplicate ==>
            && r.e !in was.hist && env.queueOk && env.reloadOk
            && SubmittedSince(delivery.cfg, delivery.run, past, w, r.e, key, env.attempt.writes(0)))
      && (r.Answered? && r.duplicate && env.attempt.writes(0) ==>
            r.status in {Delivered, Failed, DeadLetter} || ClaimedSince(delivery.run, past, w, r.e))
    }

    lemma AccountedFrom(r1: seq<Action>, s1: State, r2: seq<Action>, s2: State, w: WorkerId, key: Key, env: AcceptEnv, r: Answer)
      requires Reached(delivery.cfg, INIT, r1, s1) && Reached(delivery.cfg, INIT, r2, s2) && r1 <= r2
      requires Accounted(|r2|, s2, w, key, env, r)
      ensures Accounted(|r1|, s1, w, key, env, r)
    {
      KeysGrow(delivery.cfg, r1, s1, r2, s2);
      if r.Answered? && !r.duplicate {
        SubmittedStays(delivery.cfg, delivery.run, delivery.run, |r2|, |r1|, w, r.e, key, env.attempt.writes(0));
      } else if r.Answered? && env.attempt.writes(0) && r.status !in {Delivered, Failed, DeadLetter} {
        ClaimedStays(delivery.run, delivery.run, |r2|, |r1|, w, r.e);
      }
    }

    /** The answer when nobody else acts and no statement of the handler fails. */
    ghost predicate LonelyAnswer(was: Table, key: Key, env: AcceptEnv, r: Answer) {
      && (!KeyTaken(was, key) ==> NewAnswered(delivery.cfg, env.attempt, r))
      && (forall e :: e in was && was[e].key == key && Claimable(was[e].status) ==>
            r.Answered? && r.e == e && KnownAnswered(delivery.cfg, env.attempt, was[e], r))
    }

    /** A rotation before the lookup changes nothing for a new event, nor for one that waits. */
    lemma LonelyFrom(r1: seq<Action>, s1: State, r2: seq<Action>, s2: State, key: Key, env: AcceptEnv, r: Answer)
      requires ValidConfig(delivery.cfg) && Reached(delivery.cfg, INIT, r1, s1) && Reached(delivery.cfg, INIT, r2, s2)
      requires Rotates(r1, r2) && LonelyAnswer(s2.rows, key, env, r)
      ensures LonelyAnswer(s1.rows, key, env, r)
    {
      RotatesKeep(delivery.cfg, r1, s1, r2, s2);
    }

    /** The capacity check, and the lookup if it runs; the others act before both. */
    method Admit(w: WorkerId, env: AcceptEnv, depth: nat) returns (refusal: Option<Answer>)
      requires delivery.Valid() && delivery.sys.up && w !in delivery.sys.workers
      modifies delivery, delivery.store
      ensures delivery.Valid() && delivery.sys.up && w !in delivery.sys.workers && old(delivery.run) <= delivery.run
      ensures Refuses(limits, env.capacity(depth)) ==> refusal == Some(StoreFull)
      ensures refusal.Some? ==> refusal.value.StoreFull? || (refusal.value.InternalError? && !env.lookupOk(depth))
      ensures refusal.None? ==> env.lookupOk(depth)
      ensures Healthy(limits, env) ==> refusal.None?
      ensures Lonely(env) ==> Rotates(old(delivery.run), delivery.run)
    {
      delivery.Yield(w, env.arrivals(depth), a => Foreign(w, a));
      var fits, _, _, _, _ := delivery.EnsureCapacity(w, limits, env.capacity(depth));
      if !fits {
        return Some(StoreFull);
      }
      delivery.Yield(w, env.lookups(depth), a => Foreign(w, a));
      return if env.lookupOk(depth) then None else Some(InternalError);
    }

    /** The row of a key is the only one. */
    lemma OnlyRow(key: Key, e: EventId)
      requires delivery.Valid() && e in delivery.sys.rows && delivery.sys.rows[e].key == key
      ensures forall x :: x in delivery.sys.rows && delivery.sys.rows[x].key == key ==> x == e
      ensures KeyTaken(delivery.sys.rows, key)
    {
      ReachedInv(delivery.cfg, delivery.run, delivery.sys);
      forall x | x in delivery.sys.rows && x != e
        ensures delivery.sys.rows[x].key != key
      {
        OneRowPerKey(delivery.cfg, delivery.sys, x, e);
      }
    }

    /** One round: capacity, lookup and what follows. */
    method AcceptRound(w: WorkerId, key: Key, env: AcceptEnv, depth: nat) returns (r: Answer)
      requires delivery.Valid() && delivery.sys.up && w !in delivery.sys.workers && Buildable(env.attempt)
      modifies delivery, delivery.store
      ensures delivery.Valid() && delivery.sys.up && w !in delivery.sys.workers && old(delivery.run) <= delivery.run
      ensures Accounted(|old(delivery.run)|, old(delivery.sys), w, key, env, r)
      ensures Refuses(limits, env.capacity(depth)) ==> r.StoreFull?
      ensures r.Answered? ==> env.lookupOk(depth)
      ensures Healthy(limits, env) ==> r.Answered? || RotatedSince(key, old(delivery.sys))
      ensures Lonely(env) && Healthy(limits, env) && env.attempt.writes(0) ==> LonelyAnswer(old(delivery.sys.rows), key, env, r)
      decreases |env.races|, 1
    {
      var refusal := Admit(w, env, depth);
      if refusal.Some? {
        r := refusal.value;
      } else {
        ghost var past, before := delivery.run, delivery.sys;
        r := AcceptLooked(w, key, env, depth);
        AccountedFrom(old(delivery.run), old(delivery.sys), past, before, w, key, env, r);
        StillRotatedSince(key, old(delivery.run), old(delivery.sys), past, before);
        if Lonely(env) && Healthy(limits, env) && env.attempt.writes(0) {
          LonelyFrom(old(delivery.run), old(delivery.sys), past, before, key, env, r);
        }
      }
    }

    /** The lookup and what follows; another round when the key was taken since the lookup. */
    method AcceptLooked(w: WorkerId, key: Key, env: AcceptEnv, depth: nat) returns (r: Answer)
      requires delivery.Valid() && delivery.sys.up && w !in delivery.sys.workers && Buildable(env.attempt)
      modifies delivery, delivery.store
      ensures delivery.Valid() && delivery.sys.up && w !in delivery.sys.workers && old(delivery.run) <= delivery.run
      ensures Accounted(|old(delivery.run)|, old(delivery.sys), w, key, env, r)
      ensures Healthy(limits, env) ==> r.Answered? || RotatedSince(key, old(delivery.sys))
      ensures Lonely(env) && Healthy(limits, env) && env.attempt.writes(0) ==> LonelyAnswer(old(delivery.sys.rows), key, env, r)
      decreases |env.races|, 0
    {
      var found := delivery.store.GetByIdempotencyKey(key);
      match found {
        case Found(e, _) =>
          OnlyRow(key, e);
          r := AcceptKnown(w, key, e, env);
        case Missing =>
          var race := if env.races == [] then [] else env.races[0];
          var retry: bool;
          r, retry := AcceptNew(w, key, race, env, depth);
          if retry {
            ghost var past, before := delivery.run, delivery.sys;
            var next := env.(races := env.races[1..]);
            r := AcceptRound(w, key, next, depth + 1);
            AccountedFrom(old(delivery.run), old(delivery.sys), past, before, w, key, next, r);
            StillRotatedSince(key, old(delivery.run), old(delivery.sys), past, before);
          }
      }
    }

    /**
     One webhook, starting over when its key was taken under its feet. It is answered only about a
     persisted event of its key: the one that was there, or one that this call inserted, queued and tried to
     send. An event that was in the table under this key is the one answered, as a duplicate, unless it has
     left the table since, final and past its retention. When nobody else acts the answer tells how the
     attempt ended.
     */
    method AcceptWebhook(w: WorkerId, key: Key, env: AcceptEnv, depth: nat) returns (r: Answer)
      requires delivery.Valid() && delivery.sys.up && w !in delivery.sys.workers && Buildable(env.attempt)
      modifies delivery, delivery.store
      ensures delivery.Valid() && delivery.sys.up && w !in delivery.sys.workers && old(delivery.run) <= delivery.run
      ensures Answers(key, r) && Accounted(|old(delivery.run)|, old(delivery.sys), w, key, env, r)
      ensures Refuses(limits, env.capacity(depth)) ==> r.StoreFull?
      ensures r.Answered? ==> env.lookupOk(depth)
      ensures Healthy(limits, env) ==> r.Answered? || RotatedSince(key, old(delivery.sys))
      ensures Deduplicates(key, old(delivery.sys.rows), r)
      ensures Lonely(env) && Healthy(limits, env) && Smooth(env.attempt) && !KeyTaken(old(delivery.sys.rows), key) ==>
                r.Answered? && !r.duplicate && r.code == 200 && r.status.Delivered?
      ensures Lonely(env) && Healthy(limits, env) && env.attempt.writes(0) ==> LonelyAnswer(old(delivery.sys.rows), key, env, r)
    {
      r := AcceptRound(w, key, env, depth);
      AnswerDeduplicates(key, old(delivery.run), old(delivery.sys), r);
    }
  }
}
