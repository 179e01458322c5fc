/**
 The delivery outbox as a step system: webhook handlers, the recovery worker, the rotation job,
 process crashes and restarts, all interleaved one SQL statement or one Telegram call at a time.

 The pool is pinned to one connection (internal/store/sqlite.go:104), so a statement is atomic; what
 happens between two statements of one goroutine is free for the others. A goroutine that is inside
 ProcessEventByID is an `Owner` whose `Phase` says which statement or call comes next.

 `History` is bookkeeping that no code reads: what Telegram accepted, and how each claim ended.
 */
module Outbox {
  import opened Options
  import opened Deliveries

  type WorkerId = nat

  /** pause: half the base delay, the shortest wait the jittered backoff can give (internal/service/delivery_service.go:615-623). */
  datatype Config = Config(maxAttempts: nat, retentionDelivered: Time, retentionDeadLetter: Time, pause: nat)

  /** internal/config/config.go:199-225 */
  predicate ValidConfig(cfg: Config) {
    cfg.maxAttempts >= 1 && cfg.retentionDelivered > 0 && cfg.retentionDeadLetter > 0
  }

  function Retention(cfg: Config, s: Status): Time {
    if s.Delivered? then cfg.retentionDelivered else cfg.retentionDeadLetter
  }

  // ---------------------------------------------------------------------------------------------
  // One worker inside ProcessEventByID
  // ---------------------------------------------------------------------------------------------

  /** The last store write of a claim, and why it is made. Times are the next_retry_at to be written. */
  datatype Goal =
    | SendRetry(at: Time)    // a Telegram or network error, attempts left
    | AbortRetry(at: Time)   // the parent context was cancelled during the send
    | StoreRetry(at: Time)   // a store write failed earlier in this claim
    | Fail                   // fatal Telegram error, or the message cannot be built
    | Dead                   // attempts exhausted

  datatype Phase =
    | Unrendered                                          // claimed, no parts yet
    | SendingFrom(parts: seq<string>, index: nat)         // head of the send loop
    | Accepted(parts: seq<string>, index: nat, id: int)   // Telegram acknowledged parts[index]
    | Closing(goal: Goal)

  /** `snap` is the record ClaimForSend returned. */
  datatype Owner = Owner(ev: EventId, snap: Row, phase: Phase)

  datatype SendError = Aborted | Fatal | Retryable(after: int) | Network

  /** An error may reach the worker although Telegram took the message: `accepted` says which. */
  datatype SendOutcome =
    | Ack(id: int)
    | Err(accepted: bool, error: SendError, wait: nat)

  /**
   One statement or call of an owner. `ok` is false when the store write failed, leaving the row as it
   was. `at` is the updated_at that a final row gets, sampled before the statement has the connection.
   */
  datatype Move =
    | RenderFailed
    | SaveParts(parts: seq<string>, ok: bool, wait: nat)
    | Send(outcome: SendOutcome)
    | MarkChunk(ok: bool, wait: nat)
    | MarkDelivered(at: Time, ok: bool, wait: nat)
    | Close(at: Time, ok: bool)
    | Vanish                                              // the goroutine is gone: crash or panic

  datatype Message = Message(index: nat, text: string)

  datatype Tombstone = Tombstone(row: Row, at: Time)

  /**
   accepted: what Telegram took for this event, in order. charged: for each part, the faults that left
   an accepted message unrecorded. claims = rescheduled + aborts + faults, plus the live or final one.
   */
  datatype History = History(
    key: Key,
    insertedAt: Time,
    accepted: seq<Message>,
    charged: multiset<nat>,
    claims: nat,
    rescheduled: nat,
    aborts: nat,
    faults: nat,
    gone: Option<Tombstone>)

  /** One event as its owner sees it. */
  datatype Local = Local(row: Row, hist: History, own: Option<Owner>)

  /** handleSendError: which write ends the claim. */
  function GoalAfter(cfg: Config, now: Time, snap: Row, error: SendError, wait: nat): Goal {
    match error
    case Aborted => AbortRetry(now)
    case Fatal => Fail
    case Retryable(after) =>
      if snap.attempts >= cfg.maxAttempts then Dead
      else SendRetry(now + if after > wait then after else wait)
    case Network =>
      if snap.attempts >= cfg.maxAttempts then Dead else SendRetry(now + wait)
  }

  function GoalRow(r: Row, goal: Goal, at: Time): Row {
    match goal
    case Fail => TerminalRow(r, Failed, at)
    case Dead => TerminalRow(r, DeadLetter, at)
    case _ => RetryRow(r, goal.at, at)
  }

  function GoalHistory(h: History, goal: Goal): History {
    match goal
    case SendRetry(_) => h.(rescheduled := h.rescheduled + 1)
    case AbortRetry(_) => h.(aborts := h.aborts + 1)
    case StoreRetry(_) => h.(faults := h.faults + 1)
    case _ => h
  }

  predicate CanMove(o: Owner, now: Time, m: Move) {
    match m
    case RenderFailed => o.phase.Unrendered?
    case SaveParts(parts, _, _) => o.phase.Unrendered? && parts != []
    case Send(_) => o.phase.SendingFrom? && o.phase.index < |o.phase.parts|
    case MarkChunk(_, _) => o.phase.Accepted?
    case MarkDelivered(at, _, _) => o.phase.SendingFrom? && o.phase.index >= |o.phase.parts| && at <= now
    case Close(at, _) => o.phase.Closing? && at <= now
    case Vanish => true
  }

  function Keep(l: Local, phase: Phase): Local
    requires l.own.Some?
  {
    l.(own := Some(l.own.value.(phase := phase)))
  }

  function Record(h: History, m: Message): History {
    h.(accepted := h.accepted + [m])
  }

  function Charge(h: History, index: nat): History {
    h.(charged := h.charged + multiset{index})
  }

  function SendEffect(cfg: Config, now: Time, l: Local, outcome: SendOutcome): Local
    requires l.own.Some? && CanMove(l.own.value, now, Send(outcome))
  {
    var o := l.own.value;
    var i := o.phase.index;
    var sent := Record(l.hist, Message(i, o.phase.parts[i]));
    match outcome
    case Ack(id) =>
      Keep(l.(hist := sent), Accepted(o.phase.parts, i, id))
    case Err(accepted, error, wait) =>
      Keep(l.(hist := if accepted then Charge(sent, i) else l.hist),
           Closing(GoalAfter(cfg, now, o.snap, error, wait)))
  }

  function MoveEffect(cfg: Config, now: Time, l: Local, m: Move): Local
    requires l.own.Some? && CanMove(l.own.value, now, m)
  {
    var o := l.own.value;
    match m
    case RenderFailed =>
      Keep(l, Closing(Fail))
    case SaveParts(parts, ok, wait) =>
      if ok then Keep(l.(row := RenderedRow(l.row, parts, now)), SendingFrom(parts, o.snap.sentParts))
      else Keep(l, Closing(StoreRetry(now + wait)))
    case Send(outcome) =>
      SendEffect(cfg, now, l, outcome)
    case MarkChunk(ok, wait) =>
      if ok then
        var id := if o.phase.index == 0 then Some(o.phase.id) else None;
        Keep(l.(row := ChunkRow(l.row, o.phase.index + 1, id, now)), SendingFrom(o.phase.parts, o.phase.index + 1))
      else
        Keep(l.(hist := Charge(l.hist, o.phase.index)), Closing(StoreRetry(now + wait)))
    case MarkDelivered(at, ok, wait) =>
      if ok then l.(row := DeliveredRow(l.row, |o.phase.parts|, at), own := None)
      else Keep(l, Closing(StoreRetry(now + wait)))
    case Close(at, ok) =>
      if ok then Local(GoalRow(l.row, o.phase.goal, at), GoalHistory(l.hist, o.phase.goal), None)
      else Local(l.row, l.hist.(faults := l.hist.faults + 1), None)
    case Vanish =>
      var h := if o.phase.Accepted? then Charge(l.hist, o.phase.index) else l.hist;
      Local(l.row, h.(faults := h.faults + 1), None)
  }

  // ---------------------------------------------------------------------------------------------
  // The whole system
  // ---------------------------------------------------------------------------------------------

  /** A webhook handler between CreateReceived and MarkQueued, or a goroutine that owns a row. */
  datatype Worker =
    | Creating(ev: EventId, at: Time)
    | Owning(own: Owner)

  /** holders names the worker of the latest claim that has not ended; no code reads it. */
  datatype State = State(
    up: bool,
    now: Time,
    rows: Table,
    workers: map<WorkerId, Worker>,
    selected: set<EventId>,
    hist: map<EventId, History>,
    holders: map<EventId, WorkerId>)

  const INIT: State := State(false, 0, map[], map[], {}, map[], map[])

  /**
   `at` is a time the caller sampled before the statement ran, hence at most the current time.
   Select and Delete are the two statements of a rotation round; Drop is a round that gives up.
   */
  datatype Action =
    | Create(w: WorkerId, e: EventId, key: Key, at: Time)
    | MarkQueued(w: WorkerId, ok: bool)
    | Claim(w: WorkerId, e: EventId, at: Time)
    | Act(w: WorkerId, move: Move)
    | Select(deliveredBefore: Time, terminalBefore: Time, ids: set<EventId>)
    | Delete(ids: set<EventId>)
    | Drop
    | Tick(d: nat)
    | Crash
    | Restart

  predicate Enabled(cfg: Config, s: State, a: Action) {
    match a
    case Create(w, e, key, at) =>
      s.up && w !in s.workers && e !in s.hist && e !in s.rows && !KeyTaken(s.rows, key) && at <= s.now
    case MarkQueued(w, _) =>
      s.up && w in s.workers && s.workers[w].Creating?
    case Claim(w, e, at) =>
      s.up && w !in s.workers && e in s.rows && e in s.hist && Claimable(s.rows[e].status) && at <= s.now
    case Act(w, m) =>
      && (s.up || m.Vanish?)
      && w in s.workers
      && (if s.workers[w].Owning?
          then s.workers[w].own.ev in s.rows && s.workers[w].own.ev in s.hist && CanMove(s.workers[w].own, s.now, m)
          else m.Vanish?)
    case Select(deliveredBefore, terminalBefore, ids) =>
      && s.up && s.selected == {}
      && deliveredBefore <= s.now - cfg.retentionDelivered
      && terminalBefore <= s.now - cfg.retentionDeadLetter
      && ids <= RotatableSet(s.rows, deliveredBefore, terminalBefore)
    case Delete(ids) => s.up && ids <= s.selected
    case Drop => s.up
    case Tick(_) => true
    case Crash => s.up
    case Restart => !s.up && s.workers == map[]
  }

  function OwnerOf(s: State, e: EventId): Option<Owner> {
    if e in s.holders && s.holders[e] in s.workers && s.workers[s.holders[e]].Owning?
    then Some(s.workers[s.holders[e]].own) else None
  }

  /** One event with its current owner. */
  function View(s: State, e: EventId): Local
    requires e in s.rows && e in s.hist
  {
    Local(s.rows[e], s.hist[e], OwnerOf(s, e))
  }

  /** What a claim hands to the worker: the send loop starts at sent_parts, or the message is built first. */
  function ClaimEffect(l: Local, e: EventId, at: Time): Local {
    var row := ClaimedRow(l.row, at);
    var phase := if row.parts == [] then Unrendered else SendingFrom(row.parts, row.sentParts);
    Local(row, l.hist.(claims := l.hist.claims + 1), Some(Owner(e, row, phase)))
  }

  /** Writes the result of one owner's statement back; the worker leaves when it owns nothing any more. */
  function Install(s: State, w: WorkerId, e: EventId, l: Local): State {
    s.(rows := s.rows[e := l.row],
       hist := s.hist[e := l.hist],
       workers := if l.own.Some? then s.workers[w := Owning(l.own.value)] else s.workers - {w},
       holders := if l.own.Some? then s.holders[e := w] else s.holders - {e})
  }

  function Bury(h: History, row: Row, at: Time): History {
    h.(gone := Some(Tombstone(row, at)))
  }

  function Effect(cfg: Config, s: State, a: Action): State
    requires Enabled(cfg, s, a)
  {
    match a
    case Create(w, e, key, at) =>
      s.(rows := s.rows[e := NewRow(key, at)],
         hist := s.hist[e := History(key, s.now, [], multiset{}, 0, 0, 0, 0, None)],
         workers := s.workers[w := Creating(e, at)])
    case MarkQueued(w, ok) =>
      var c := s.workers[w];
      s.(rows := if ok then Update(s.rows, c.ev, r => QueuedRow(r, c.at, s.now)) else s.rows,
         workers := s.workers - {w})
    case Claim(w, e, at) =>
      Install(s, w, e, ClaimEffect(View(s, e), e, at))
    case Act(w, m) =>
      if s.workers[w].Owning? then
        var o := s.workers[w].own;
        Install(s, w, o.ev, MoveEffect(cfg, s.now, Local(s.rows[o.ev], s.hist[o.ev], Some(o)), m))
      else
        s.(workers := s.workers - {w})
    case Select(_, _, ids) => s.(selected := ids)
    case Delete(ids) =>
      s.(rows := s.rows - ids,
         hist := map e | e in s.hist :: if e in ids && e in s.rows then Bury(s.hist[e], s.rows[e], s.now) else s.hist[e],
         selected := s.selected - ids)
    case Drop => s.(selected := {})
    case Tick(d) => s.(now := s.now + d)
    case Crash => s.(up := false, selected := {})
    case Restart => s.(up := true, rows := RequeueAll(s.rows, s.now, s.now))
  }

  /** A disabled action changes nothing (a claim of a row that is not claimable, for one). */
  function Step(cfg: Config, s: State, a: Action): State {
    if Enabled(cfg, s, a) then Effect(cfg, s, a) else s
  }

  function After(cfg: Config, s: State, acts: seq<Action>): State
    decreases |acts|
  {
    if acts == [] then s else After(cfg, Step(cfg, s, acts[0]), acts[1..])
  }

  // ---------------------------------------------------------------------------------------------
  // The hypothesis on MarkQueued
  // ---------------------------------------------------------------------------------------------

  predicate Owned(s: State, e: EventId) {
    exists w :: w in s.workers && s.workers[w].Owning? && s.workers[w].own.ev == e
  }

  /** MarkQueued has no status gate. It is harmless on a row that nobody is sending and that is not terminal. */
  predicate Gate(s: State, a: Action) {
    a.MarkQueued? && a.ok && s.up && a.w in s.workers && s.workers[a.w].Creating? && s.workers[a.w].ev in s.rows
    ==> !Owned(s, s.workers[a.w].ev) && !Terminal(s.rows[s.workers[a.w].ev].status)
  }

  /** No MarkQueued of the run hits a row that someone already owns or finished. */
  predicate Disciplined(cfg: Config, s: State, acts: seq<Action>)
    decreases |acts|
  {
    acts == [] || (Gate(s, acts[0]) && Disciplined(cfg, Step(cfg, s, acts[0]), acts[1..]))
  }
}
