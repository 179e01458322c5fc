/** One delivery attempt: what it meets, how it can end, and what each ending leaves in the row. */
module Attempts {
  import opened Options
  import opened Deliveries
  import opened Storage
  import opened Outbox
  import opened OutboxInvariant
  import opened OutboxTheorems
  import opened Interference
  import opened Calm

  /**
   others(k): what the other goroutines try to do at the k-th scheduling point. writes(k): whether the
   k-th store statement succeeds. message: the parts built from the stored payload, None if that fails.
   Points and statements: 0 the claim, 1 the save of the parts, 2 the write that closes a claim, 3 the
   write that completes it; from 4 on, two points a part: before its send and before its record.
   */
  datatype Env = Env(
    others: nat -> seq<Action>,
    writes: nat -> bool,
    sends: nat -> SendOutcome,
    waits: nat -> nat,
    message: Option<seq<string>>)

  /** buildMessages never succeeds with zero parts. */
  predicate Buildable(env: Env) {
    env.message.Some? ==> env.message.value != []
  }

  /** Every statement succeeds, Telegram acknowledges every part, the message can be built. */
  ghost predicate Smooth(env: Env) {
    (forall k :: env.writes(k)) && (forall k :: env.sends(k).Ack?) && env.message.Some?
  }

  predicate AllCalm(cfg: Config, acts: seq<Action>) {
    forall a :: a in acts ==> CalmAction(cfg, a)
  }

  ghost predicate CalmEnv(cfg: Config, env: Env) {
    && (forall k :: AllCalm(cfg, env.others(k)))
    && (forall k :: CalmOutcome(cfg, env.sends(k)))
    && (forall k :: env.waits(k) >= cfg.pause)
  }

  /** Every step from `past` to `run` is calm. */
  predicate CalmBetween(cfg: Config, past: seq<Action>, run: seq<Action>) {
    past <= run && AllCalm(cfg, run[|past|..])
  }

  lemma CalmNext(cfg: Config, r0: seq<Action>, r1: seq<Action>, a: Action)
    requires CalmBetween(cfg, r0, r1) && CalmAction(cfg, a)
    ensures CalmBetween(cfg, r0, r1 + [a])
  {
  }

  lemma ReachedInv(cfg: Config, run: seq<Action>, s: State)
    requires ValidConfig(cfg) && Reached(cfg, INIT, run, s)
    ensures Reachable(cfg, s) && Inv(cfg, s)
  {
    ReachableInv(cfg, s);
  }

  lemma {:induction false} ClockRuns(cfg: Config, s: State, acts: seq<Action>)
    ensures s.now <= After(cfg, s, acts).now
    decreases |acts|
  {
    if acts != [] {
      ClockRuns(cfg, Step(cfg, s, acts[0]), acts[1..]);
    }
  }

  lemma ReachedBetween(cfg: Config, r1: seq<Action>, s1: State, r2: seq<Action>, s2: State)
    requires Reached(cfg, INIT, r1, s1) && Reached(cfg, INIT, r2, s2) && r1 <= r2
    ensures Reached(cfg, s1, r2[|r1|..], s2) && s1.now <= s2.now
  {
    assert r2 == r1 + r2[|r1|..];
    AfterConcat(cfg, INIT, r1, r2[|r1|..]);
    ClockRuns(cfg, s1, r2[|r1|..]);
  }

  /** Nothing that was not due at t before is due at t after, and nothing is about to be. */
  predicate Quiet(cfg: Config, s: State, s': State, t: Time) {
    t < s.now + cfg.pause && NoneSoon(s, t) ==> NoneSoon(s', t) && Undisturbed(s.rows, s'.rows, t)
  }

  /** Over calm steps nothing becomes due. */
  lemma CalmSuffix(cfg: Config, r1: seq<Action>, s1: State, r2: seq<Action>, s2: State, t: Time)
    requires ValidConfig(cfg) && Reached(cfg, INIT, r1, s1) && Reached(cfg, INIT, r2, s2) && CalmBetween(cfg, r1, r2)
    ensures s1.now <= s2.now && Quiet(cfg, s1, s2, t)
  {
    ReachedInv(cfg, r1, s1);
    ReachedBetween(cfg, r1, s1, r2, s2);
    if t < s1.now + cfg.pause && NoneSoon(s1, t) {
      CalmRun(cfg, s1, r2[|r1|..], t);
    }
  }

  lemma QuietJoin(cfg: Config, s: State, s': State, s'': State, t: Time)
    requires Quiet(cfg, s, s', t) && Quiet(cfg, s', s'', t) && s.now <= s'.now
    ensures Quiet(cfg, s, s'', t)
  {
  }

  /** An attempt on event e was quiet, and e is not due at t any more. */
  predicate Handled(cfg: Config, s: State, s': State, e: EventId, t: Time) {
    Quiet(cfg, s, s', t) && (t < s.now + cfg.pause && NoneSoon(s, t) ==> e !in DueSet(s'.rows, t))
  }

  /** Attempts on these events were quiet, and none of them is due at t any more. */
  predicate AllHandled(cfg: Config, s: State, s': State, ids: set<EventId>, t: Time) {
    Quiet(cfg, s, s', t) && (t < s.now + cfg.pause && NoneSoon(s, t) ==> DueSet(s'.rows, t) <= DueSet(s.rows, t) - ids)
  }

  lemma HandledNext(cfg: Config, s: State, s': State, s'': State, ids: set<EventId>, e: EventId, t: Time)
    requires AllHandled(cfg, s, s', ids, t) && Handled(cfg, s', s'', e, t) && s.now <= s'.now
    ensures AllHandled(cfg, s, s'', ids + {e}, t)
  {
    if t < s.now + cfg.pause && NoneSoon(s, t) {
      UndisturbedShrinks(s'.rows, s''.rows, t);
    }
  }

  lemma HandledThenQuiet(cfg: Config, s: State, s': State, s'': State, e: EventId, t: Time)
    requires Handled(cfg, s, s', e, t) && Quiet(cfg, s', s'', t) && s.now <= s'.now
    ensures Handled(cfg, s, s'', e, t)
  {
  }

  // ---------------------------------------------------------------------------------------------
  // The steps of an attempt
  // ---------------------------------------------------------------------------------------------

  /** From `past` to `run` goroutine w only made statements and calls of its claim, and all was calm if the environment is. */
  ghost predicate Tame(cfg: Config, w: WorkerId, env: Env, past: seq<Action>, run: seq<Action>) {
    && past <= run && (forall a :: a in run[|past|..] && Actor(a) == Some(w) ==> a.Act?)
    && (CalmEnv(cfg, env) ==> CalmBetween(cfg, past, run))
  }

  lemma TameJoin(cfg: Config, w: WorkerId, env: Env, r0: seq<Action>, r1: seq<Action>, r2: seq<Action>)
    requires Tame(cfg, w, env, r0, r1) && Tame(cfg, w, env, r1, r2)
    ensures Tame(cfg, w, env, r0, r2)
  {
  }

  lemma TameNext(cfg: Config, w: WorkerId, env: Env, r0: seq<Action>, r1: seq<Action>, m: Move)
    requires Tame(cfg, w, env, r0, r1) && (CalmEnv(cfg, env) ==> CalmMove(cfg, m))
    ensures Tame(cfg, w, env, r0, r1 + [Act(w, m)])
  {
  }

  /** From `past` to `run` goroutine w claimed nothing but e, and inserted and queued nothing. */
  predicate OnlyClaims(w: WorkerId, e: EventId, past: seq<Action>, run: seq<Action>) {
    past <= run && forall a :: a in run[|past|..] && Actor(a) == Some(w) ==> a.Act? || (a.Claim? && a.e == e)
  }

  lemma OthersOnly(w: WorkerId, e: EventId, past: seq<Action>, run: seq<Action>)
    requires past <= run && forall a :: a in run[|past|..] ==> Foreign(w, a)
    ensures OnlyClaims(w, e, past, run)
  {
  }

  lemma OnlyClaimsNext(w: WorkerId, e: EventId, past: seq<Action>, run: seq<Action>, at: Time)
    requires OnlyClaims(w, e, past, run)
    ensures OnlyClaims(w, e, past, run + [Claim(w, e, at)])
  {
  }

  lemma OnlyClaimsThenTame(cfg: Config, w: WorkerId, e: EventId, env: Env, r0: seq<Action>, r1: seq<Action>, r2: seq<Action>)
    requires OnlyClaims(w, e, r0, r1) && Tame(cfg, w, env, r1, r2)
    ensures OnlyClaims(w, e, r0, r2)
  {
    forall a | a in r2[|r0|..] && Actor(a) == Some(w)
      ensures a.Act? || (a.Claim? && a.e == e)
    {
      assert r2[|r0|..] == r1[|r0|..] + r2[|r1|..];
    }
  }

  lemma TameForeign(cfg: Config, w: WorkerId, env: Env, past: seq<Action>, run: seq<Action>)
    requires past <= run && forall a :: a in run[|past|..] ==> Foreign(w, a)
    requires CalmEnv(cfg, env) ==> CalmBetween(cfg, past, run)
    ensures Tame(cfg, w, env, past, run)
  {
  }

  /** The k-th step of the run is a claim of e by goroutine w. */
  predicate ClaimsAt(run: seq<Action>, k: nat, w: WorkerId, e: EventId) {
    k < |run| && run[k].Claim? && run[k].w == w && run[k].e == e
  }

  ghost predicate ClaimedSince(run: seq<Action>, past: nat, w: WorkerId, e: EventId) {
    exists k: nat :: past <= k && ClaimsAt(run, k, w, e)
  }

  lemma ClaimedStays(run: seq<Action>, run': seq<Action>, past: nat, past': nat, w: WorkerId, e: EventId)
    requires ClaimedSince(run, past, w, e) && run <= run' && past' <= past
    ensures ClaimedSince(run', past', w, e)
  {
    var k: nat :| past <= k && ClaimsAt(run, k, w, e);
    assert ClaimsAt(run', k, w, e);
  }

  // ---------------------------------------------------------------------------------------------
  // How a claim ends
  // ---------------------------------------------------------------------------------------------

  /** The statement or call that ended the claim, and when: times are those from which a retry is counted. */
  datatype Ending =
    | Finished
    | Unbuilt
    | SaveFailed(at: Time)
    | SendFailed(index: nat, at: Time)
    | RecordFailed(index: nat, at: Time)
    | CompletionFailed(at: Time)

  /** The parts to send: those in the record, or else the message. */
  function Planned(env: Env, record: Row): seq<string> {
    if record.parts != [] then record.parts else if env.message.Some? then env.message.value else []
  }

  /** The parts are there, and those from the first unsent one up to index i were acknowledged and recorded. */
  ghost predicate SentUpTo(env: Env, record: Row, i: nat) {
    && (record.parts == [] ==> env.message.Some? && env.writes(1))
    && forall j: nat :: record.sentParts <= j < i ==> env.sends(j).Ack? && env.writes(4 + j)
  }

  lemma SentNext(env: Env, record: Row, i: nat)
    requires SentUpTo(env, record, i) && env.sends(i).Ack? && env.writes(4 + i)
    ensures SentUpTo(env, record, i + 1)
  {
  }

  /** The environment makes a claim with this record end like that. */
  ghost predicate Caused(env: Env, record: Row, ending: Ending) {
    var parts := Planned(env, record);
    match ending
    case Finished => SentUpTo(env, record, |parts|) && env.writes(3)
    case Unbuilt => record.parts == [] && env.message.None?
    case SaveFailed(_) => record.parts == [] && env.message.Some? && !env.writes(1)
    case SendFailed(i, _) => record.sentParts <= i < |parts| && SentUpTo(env, record, i) && env.sends(i).Err?
    case RecordFailed(i, _) => record.sentParts <= i < |parts| && SentUpTo(env, record, i) && env.sends(i).Ack? && !env.writes(4 + i)
    case CompletionFailed(_) => SentUpTo(env, record, |parts|) && !env.writes(3)
  }

  /** The status and the retry time a send error leads to, on the attempt the record counts. */
  predicate SendErrorRow(cfg: Config, record: Row, outcome: SendOutcome, at: Time, row: Row)
    requires outcome.Err?
  {
    match outcome.error
    case Aborted => row.status.RetryScheduled? && row.nextRetryAt == Some(at)
    case Fatal => row.status.Failed? && row.nextRetryAt == None
    case Retryable(after) =>
      if record.attempts >= cfg.maxAttempts then row.status.DeadLetter? && row.nextRetryAt == None
      else row.status.RetryScheduled? && row.nextRetryAt == Some(at + if after > outcome.wait then after else outcome.wait)
    case Network =>
      if record.attempts >= cfg.maxAttempts then row.status.DeadLetter? && row.nextRetryAt == None
      else row.status.RetryScheduled? && row.nextRetryAt == Some(at + outcome.wait)
  }

  /** The status and the retry time that an ending leads to, if the write that closes the claim succeeds. */
  predicate ClosedRow(cfg: Config, env: Env, record: Row, ending: Ending, row: Row) {
    match ending
    case Finished => row.status.Delivered? && row.nextRetryAt == None
    case Unbuilt => row.status.Failed? && row.nextRetryAt == None
    case SaveFailed(at) => row.status.RetryScheduled? && row.nextRetryAt == Some(at + env.waits(1))
    case SendFailed(i, at) => env.sends(i).Err? && SendErrorRow(cfg, record, env.sends(i), at, row)
    case RecordFailed(i, at) => row.status.RetryScheduled? && row.nextRetryAt == Some(at + env.waits(4 + i))
    case CompletionFailed(at) => row.status.RetryScheduled? && row.nextRetryAt == Some(at + env.waits(3))
  }

  /** The parts and the progress that an ending leaves. */
  predicate ProgressRow(env: Env, record: Row, ending: Ending, row: Row) {
    && row.attempts == record.attempts
    && row.parts == (if ending.Unbuilt? || ending.SaveFailed? then [] else Planned(env, record))
    && match ending
       case Finished => row.sentParts == |row.parts|
       case Unbuilt => row.sentParts == record.sentParts
       case SaveFailed(_) => row.sentParts == record.sentParts
       case SendFailed(i, _) => row.sentParts == i
       case RecordFailed(i, _) => row.sentParts == i
       case CompletionFailed(_) => row.sentParts == |row.parts|
  }

  predicate EndedIn(ending: Ending, since: Time, now: Time) {
    ending.Finished? || ending.Unbuilt? || since <= ending.at <= now
  }

  /** A claim of e with this record ended between since and now, and the row says how. */
  ghost predicate ClaimEnded(cfg: Config, env: Env, e: EventId, record: Row, ending: Ending, since: Time, s: State) {
    && e in s.rows && Caused(env, record, ending) && EndedIn(ending, since, s.now)
    && ProgressRow(env, record, ending, s.rows[e])
    && (if ending.Finished? || env.writes(2) then ClosedRow(cfg, env, record, ending, s.rows[e]) else s.rows[e].status.Sending?)
  }

  /** How long after the failure the retry of a failed store write comes. */
  function StoreWait(env: Env, ending: Ending): nat {
    match ending
    case SaveFailed(_) => env.waits(1)
    case RecordFailed(i, _) => env.waits(4 + i)
    case _ => env.waits(3)
  }

  /** A failed store write, and the write that schedules the retry. */
  lemma StoreFailureEnds(cfg: Config, env: Env, e: EventId, record: Row, ending: Ending, since: Time, row: Row, at: Time, s: State)
    requires ending.SaveFailed? || ending.RecordFailed? || ending.CompletionFailed?
    requires Caused(env, record, ending) && EndedIn(ending, since, s.now) && ProgressRow(env, record, ending, row) && row.status.Sending?
    requires e in s.rows && s.rows[e] == if env.writes(2) then GoalRow(row, StoreRetry(ending.at + StoreWait(env, ending)), at) else row
    ensures ClaimEnded(cfg, env, e, record, ending, since, s)
  {
  }

  /** A send error, and the write that answers it. */
  lemma SendErrorEnds(cfg: Config, env: Env, e: EventId, record: Row, i: nat, sentAt: Time, since: Time, row: Row, s: State)
    requires Caused(env, record, SendFailed(i, sentAt)) && EndedIn(SendFailed(i, sentAt), since, s.now)
    requires ProgressRow(env, record, SendFailed(i, sentAt), row) && row.status.Sending? && e in s.rows
    requires if env.writes(2) then ErrorAnswered(cfg, sentAt, row, env.sends(i).error, env.sends(i).wait, s.rows[e]) else s.rows[e] == row
    ensures ClaimEnded(cfg, env, e, record, SendFailed(i, sentAt), since, s)
  {
    var outcome := env.sends(i);
    if env.writes(2) {
      assert SendErrorRow(cfg, record, outcome, sentAt, s.rows[e]);
    }
  }

  lemma CompletionEnds(cfg: Config, env: Env, e: EventId, record: Row, since: Time, row: Row, at: Time, s: State)
    requires Caused(env, record, Finished) && row.attempts == record.attempts && row.parts == Planned(env, record)
    requires e in s.rows && s.rows[e] == DeliveredRow(row, |row.parts|, at)
    ensures ClaimEnded(cfg, env, e, record, Finished, since, s)
  {
  }

  datatype Attempt = Completed | Skipped | Errored

  /** The record of the claim of an attempt, and how the claim ended. */
  datatype AttemptLog = AttemptLog(record: Row, ending: Ending)

  /**
   An attempt on e from state s to state s'. Unless its first statement fails or the row is not claimable
   when that runs, it claims e, and the claim ends in one of the ways above, by success if and only if the
   attempt is completed. With nobody acting before the claim, it claims e exactly if e is claimable in s.
   */
  ghost predicate AttemptRan(cfg: Config, env: Env, e: EventId, s: State, s': State, r: Attempt, log: AttemptLog) {
    && s.now <= s'.now
    && (match r
        case Skipped => env.writes(0) && (env.others(0) == [] ==> !(e in s.rows && s.rows[e].status in {Received, Queued, RetryScheduled}))
        case Completed => env.writes(0) && log.ending.Finished? && ClaimEnded(cfg, env, e, log.record, log.ending, s.now, s')
        case Errored => env.writes(0) ==> !log.ending.Finished? && ClaimEnded(cfg, env, e, log.record, log.ending, s.now, s'))
    && (env.others(0) == [] && env.writes(0) && !r.Skipped? ==>
          && e in s.rows && s.rows[e].status in {Received, Queued, RetryScheduled}
          && log.record == s.rows[e].(status := Sending, attempts := s.rows[e].attempts + 1, updatedAt := s.now, nextRetryAt := None))
  }

  /** Every statement succeeds, and the part i is the first from the given one on that is not acknowledged. */
  ghost predicate FailsAt(env: Env, parts: seq<string>, from: nat, i: nat) {
    (forall k :: env.writes(k)) && from <= i < |parts| && env.sends(i).Err? && forall j: nat :: from <= j < i ==> env.sends(j).Ack?
  }

  /** Then that is how the claim ends. */
  lemma FailsEnding(env: Env, record: Row, ending: Ending, i: nat)
    requires Caused(env, record, ending) && FailsAt(env, Planned(env, record), record.sentParts, i)
    ensures ending.SendFailed? && ending.index == i
  {
    assert env.writes(1) && env.writes(3);
  }

  lemma SmoothEnding(env: Env, record: Row, ending: Ending)
    requires Caused(env, record, ending) && Smooth(env)
    ensures ending.Finished?
  {
    assert env.writes(1) && env.writes(3);
  }

  /** The status a claim leaves that counts `attempts`: delivered if all goes well, and otherwise as the first send error says. */
  ghost predicate Resolved(cfg: Config, env: Env, parts: seq<string>, from: nat, attempts: nat, status: Status) {
    && (Smooth(env) ==> status.Delivered?)
    && (forall i: nat {:trigger env.sends(i)} :: FailsAt(env, parts, from, i) ==>
          match env.sends(i).error
          case Fatal => status.Failed?
          case Aborted => status.RetryScheduled?
          case _ => if attempts >= cfg.maxAttempts then status.DeadLetter? else status.RetryScheduled?)
  }

  lemma ClaimResolves(cfg: Config, env: Env, e: EventId, record: Row, ending: Ending, since: Time, s: State)
    requires ClaimEnded(cfg, env, e, record, ending, since, s)
    ensures Resolved(cfg, env, Planned(env, record), record.sentParts, record.attempts, s.rows[e].status)
  {
    if Smooth(env) {
      SmoothEnding(env, record, ending);
    }
    forall i: nat | FailsAt(env, Planned(env, record), record.sentParts, i)
      ensures ending.SendFailed? && ending.index == i && env.writes(2)
    {
      FailsEnding(env, record, ending, i);
    }
  }

  // ---------------------------------------------------------------------------------------------
  // The moves of an owner
  // ---------------------------------------------------------------------------------------------

  lemma OwnerKept(cfg: Config, now: Time, l: Local, m: Move)
    requires l.own.Some? && CanMove(l.own.value, now, m)
    ensures var l' := MoveEffect(cfg, now, l, m);
            l'.own.Some? ==> l'.own.value.ev == l.own.value.ev && l'.own.value.snap == l.own.value.snap
  {
  }

  lemma ChunkMove(cfg: Config, now: Time, l: Local, ok: bool, wait: nat)
    requires l.own.Some? && l.own.value.phase.Accepted?
    ensures var phase, l' := l.own.value.phase, MoveEffect(cfg, now, l, MarkChunk(ok, wait));
            && l'.own.Some?
            && l'.row == (if ok then ChunkRow(l.row, phase.index + 1, if phase.index == 0 then Some(phase.id) else None, now) else l.row)
            && l'.own.value.phase == if ok then SendingFrom(phase.parts, phase.index + 1) else Closing(StoreRetry(now + wait))
  {
  }
}
