/** What a recovery pass does: which events it lists, its attempts at them, and what it takes out of the due ones. */
module Passes {
  import opened Options
  import opened Deliveries
  import opened Storage
  import opened Outbox
  import opened OutboxInvariant
  import opened OutboxTheorems
  import opened Interference
  import opened Calm
  import opened Attempts

  /** What one recovery pass meets: the others before its SELECT, its attempts, and when its context is cancelled. */
  datatype PassEnv = PassEnv(
    before: seq<Action>,
    attempts: nat -> Env,
    cancelled: nat -> bool)

  ghost predicate BuildablePass(pass: PassEnv) {
    forall k :: Buildable(pass.attempts(k))
  }

  /** The attempts of a pass: the i-th took the steps of the run from marks[i] to marks[i + 1]. */
  datatype Trail = Trail(marks: seq<nat>, logs: seq<(Attempt, AttemptLog)>)

  ghost predicate AttemptAt(cfg: Config, w: WorkerId, e: EventId, env: Env, run: seq<Action>, trail: Trail, i: nat) {
    && i < |trail.logs| && |trail.marks| == |trail.logs| + 1 && trail.marks[i] <= trail.marks[i + 1] <= |run|
    && AttemptRan(cfg, env, e, After(cfg, INIT, run[..trail.marks[i]]), After(cfg, INIT, run[..trail.marks[i + 1]]), trail.logs[i].0, trail.logs[i].1)
    && OnlyClaims(w, e, run[..trail.marks[i]], run[..trail.marks[i + 1]])
    && (env.writes(0) ==> ClaimedSince(run[..trail.marks[i + 1]], trail.marks[i], w, e))
  }

  /** The events were attempted in this order, one after the other, none once the context was cancelled. */
  ghost predicate AttemptsRan(cfg: Config, w: WorkerId, ids: seq<EventId>, pass: PassEnv, run: seq<Action>, trail: Trail) {
    && |trail.logs| <= |ids| && |trail.marks| == |trail.logs| + 1
    && (forall i: nat :: i < |trail.logs| ==> AttemptAt(cfg, w, ids[i], pass.attempts(i), run, trail, i))
    && (forall i: nat :: i < |trail.logs| ==> !pass.cancelled(i))
  }

  /** The first k attempts of a pass whose attempts began after `past` steps. */
  ghost predicate TrailFits(cfg: Config, w: WorkerId, ids: seq<EventId>, pass: PassEnv, past: nat, run: seq<Action>, trail: Trail, k: nat) {
    AttemptsRan(cfg, w, ids, pass, run, trail) && |trail.logs| == k && trail.marks[0] == past && trail.marks[k] == |run|
  }

  lemma AttemptStays(cfg: Config, w: WorkerId, e: EventId, env: Env, run: seq<Action>, run': seq<Action>, trail: Trail, trail': Trail, i: nat)
    requires AttemptAt(cfg, w, e, env, run, trail, i) && run <= run'
    requires |trail'.marks| == |trail'.logs| + 1 && trail.marks <= trail'.marks && trail.logs <= trail'.logs
    ensures AttemptAt(cfg, w, e, env, run', trail', i)
  {
    assert run'[..trail.marks[i]] == run[..trail.marks[i]] && run'[..trail.marks[i + 1]] == run[..trail.marks[i + 1]];
  }

  /** A pass that began after `start` steps of the run, and listed these events where its attempts began. */
  datatype PassLog = PassLog(start: nat, ids: seq<EventId>, trail: Trail)

  ghost predicate PassRan(cfg: Config, w: WorkerId, batch: nat, pass: PassEnv, run: seq<Action>, log: PassLog) {
    && AttemptsRan(cfg, w, log.ids, pass, run, log.trail) && log.start <= log.trail.marks[0] <= |run|
    && (pass.before == [] ==> log.trail.marks[0] == log.start)
    && var listed, at := After(cfg, INIT, run[..log.trail.marks[0]]).rows, After(cfg, INIT, run[..log.start]).now;
       Lowest(log.ids, DueSet(listed, at), CreatedAt(listed), batch)
  }

  ghost predicate PassesRan(cfg: Config, w: WorkerId, batch: nat, passes: nat -> PassEnv, run: seq<Action>, logs: seq<PassLog>) {
    forall k: nat :: k < |logs| ==> PassRan(cfg, w, batch, passes(k), run, logs[k])
  }

  lemma PassStays(cfg: Config, w: WorkerId, batch: nat, pass: PassEnv, run: seq<Action>, run': seq<Action>, log: PassLog)
    requires PassRan(cfg, w, batch, pass, run, log) && run <= run'
    ensures PassRan(cfg, w, batch, pass, run', log)
  {
    forall i: nat | i < |log.trail.logs|
      ensures AttemptAt(cfg, w, log.ids[i], pass.attempts(i), run', log.trail, i)
    {
      AttemptStays(cfg, w, log.ids[i], pass.attempts(i), run, run', log.trail, log.trail, i);
    }
    assert run'[..log.start] == run[..log.start] && run'[..log.trail.marks[0]] == run[..log.trail.marks[0]];
  }

  /** All passes were made to the end, or the last one was cancelled. */
  predicate RoundsDone(passes: nat -> PassEnv, rounds: nat, logs: seq<PassLog>, live: bool) {
    && |logs| <= rounds && (forall k :: 0 <= k < |logs| - 1 ==> |logs[k].trail.logs| == |logs[k].ids|)
    && if live then |logs| == rounds && (logs != [] ==> |logs[|logs| - 1].trail.logs| == |logs[|logs| - 1].ids|)
       else logs != [] && passes(|logs| - 1).cancelled(|logs[|logs| - 1].trail.logs|)
  }

  /** The passes of k rounds. */
  ghost predicate Recovered(cfg: Config, w: WorkerId, batch: nat, passes: nat -> PassEnv, run: seq<Action>, k: nat, logs: seq<PassLog>, live: bool) {
    PassesRan(cfg, w, batch, passes, run, logs) && RoundsDone(passes, k, logs, live)
  }

  lemma PassesGoOn(cfg: Config, w: WorkerId, batch: nat, passes: nat -> PassEnv, run: seq<Action>, run': seq<Action>, logs: seq<PassLog>, log: PassLog)
    requires PassesRan(cfg, w, batch, passes, run, logs) && run <= run' && PassRan(cfg, w, batch, passes(|logs|), run', log)
    ensures PassesRan(cfg, w, batch, passes, run', logs + [log])
  {
    forall k: nat | k < |logs|
      ensures PassRan(cfg, w, batch, passes(k), run', logs[k])
    {
      PassStays(cfg, w, batch, passes(k), run, run', logs[k]);
    }
  }

  lemma RoundsGoOn(passes: nat -> PassEnv, k: nat, rounds: nat, logs: seq<PassLog>, log: PassLog)
    requires RoundsDone(passes, k, logs, true) && k < rounds
    requires |log.trail.logs| != |log.ids| ==> passes(k).cancelled(|log.trail.logs|)
    ensures if |log.trail.logs| == |log.ids| then RoundsDone(passes, k + 1, logs + [log], true) else RoundsDone(passes, rounds, logs + [log], false)
  {
  }

  lemma RecoveredNext(cfg: Config, w: WorkerId, batch: nat, passes: nat -> PassEnv, run: seq<Action>, run': seq<Action>, k: nat,
                      rounds: nat, logs: seq<PassLog>, log: PassLog)
    requires Recovered(cfg, w, batch, passes, run, k, logs, true) && run <= run' && PassRan(cfg, w, batch, passes(k), run', log)
    requires k < rounds && (|log.trail.logs| != |log.ids| ==> passes(k).cancelled(|log.trail.logs|))
    ensures if |log.trail.logs| == |log.ids| then Recovered(cfg, w, batch, passes, run', k + 1, logs + [log], true)
            else Recovered(cfg, w, batch, passes, run', rounds, logs + [log], false)
  {
    PassesGoOn(cfg, w, batch, passes, run, run', logs, log);
    RoundsGoOn(passes, k, rounds, logs, log);
  }

  /** Claims succeed and the environment is calm, in every attempt of a pass. */
  ghost predicate CalmPass(cfg: Config, pass: PassEnv) {
    AllCalm(cfg, pass.before) && forall k :: CalmEnv(cfg, pass.attempts(k)) && pass.attempts(k).writes(0)
  }

  /** No row falls due after t0 and up to t. */
  predicate Steady(rows: Table, t0: Time, t: Time) {
    forall e :: e in rows && Due(rows[e], t) ==> Due(rows[e], t0)
  }

  lemma SteadyStays(rows: Table, rows': Table, t0: Time, t: Time)
    requires Steady(rows, t0, t) && Undisturbed(rows, rows', t)
    ensures Steady(rows', t0, t)
  {
  }

  lemma SteadySame(rows: Table, t0: Time, at: Time, t: Time)
    requires Steady(rows, t0, t) && t0 <= at <= t
    ensures DueSet(rows, at) == DueSet(rows, t)
  {
  }

  /** What is left of n due events after a pass over at most `batch` of them. */
  function Left(n: nat, batch: nat): nat {
    if n < batch then 0 else n - batch
  }

  lemma ListedLeave(ids: seq<EventId>, before: set<EventId>, after: set<EventId>, rank: map<EventId, Time>, batch: nat)
    requires Lowest(ids, before, rank, batch) && after <= before - Ids(ids)
    ensures |after| <= Left(|before|, batch)
  {
    IdsCount(ids);
    assert before == Ids(ids) + (before - Ids(ids));
    SubsetCount(after, before - Ids(ids));
  }

  /** A pass that lists at `at` takes min(batch, due) events out of those due at the horizon. */
  lemma PassShrinks(rows: Table, listed: Table, after: Table, ids: seq<EventId>, at: Time, horizon: Time, batch: nat)
    requires at <= horizon && Steady(rows, at, horizon) && Undisturbed(rows, listed, horizon)
    requires Lowest(ids, DueSet(listed, at), CreatedAt(listed), batch)
    requires DueSet(after, horizon) <= DueSet(listed, horizon) - Ids(ids)
    ensures DueSet(after, horizon) <= DueSet(rows, horizon) - Ids(ids)
    ensures |DueSet(after, horizon)| <= Left(|DueSet(rows, horizon)|, batch)
  {
    SteadyStays(rows, listed, at, horizon);
    SteadySame(listed, at, at, horizon);
    UndisturbedShrinks(rows, listed, horizon);
    ListedLeave(ids, DueSet(listed, horizon), DueSet(after, horizon), CreatedAt(listed), batch);
    SubsetCount(DueSet(listed, horizon), DueSet(rows, horizon));
  }

  /**
   What a pass does to the events due at a horizon no earlier than its listing and closer than the smallest
   backoff, with no row falling due in between: min(batch, due) of them are not any more, and none joins them.
   */
  predicate PassDrained(cfg: Config, s: State, s': State, ids: seq<EventId>, horizon: Time, batch: nat) {
    s.now <= horizon < s.now + cfg.pause && NoneSoon(s, horizon) && Steady(s.rows, s.now, horizon) ==>
      && DueSet(s'.rows, horizon) <= DueSet(s.rows, horizon) - Ids(ids)
      && |DueSet(s'.rows, horizon)| <= Left(|DueSet(s.rows, horizon)|, batch)
  }

  lemma PassDrains(cfg: Config, r0: seq<Action>, s0: State, r1: seq<Action>, listed: State, s: State, ids: seq<EventId>, horizon: Time, batch: nat)
    requires ValidConfig(cfg) && Reached(cfg, INIT, r0, s0) && Reached(cfg, INIT, r1, listed) && CalmBetween(cfg, r0, r1)
    requires Lowest(ids, DueSet(listed.rows, s0.now), CreatedAt(listed.rows), batch)
    requires Quiet(cfg, listed, s, horizon)
    ensures Quiet(cfg, s0, s, horizon)
    ensures AllHandled(cfg, listed, s, Ids(ids), horizon) ==> PassDrained(cfg, s0, s, ids, horizon, batch)
  {
    CalmSuffix(cfg, r0, s0, r1, listed, horizon);
    QuietJoin(cfg, s0, listed, s, horizon);
    if && s0.now <= horizon < s0.now + cfg.pause && NoneSoon(s0, horizon) && Steady(s0.rows, s0.now, horizon)
       && DueSet(s.rows, horizon) <= DueSet(listed.rows, horizon) - Ids(ids)
    {
      PassShrinks(s0.rows, listed.rows, s.rows, ids, s0.now, horizon, batch);
    }
  }

  /** The horizon is not in the past, closer than the smallest backoff, and no row falls due before it. */
  predicate Opens(cfg: Config, s: State, horizon: Time) {
    s.now <= horizon < s.now + cfg.pause && NoneSoon(s, horizon) && Steady(s.rows, s.now, horizon)
  }

  ghost predicate CalmRecovery(cfg: Config, waits: nat -> seq<Action>, passes: nat -> PassEnv) {
    forall k :: AllCalm(cfg, waits(k)) && CalmPass(cfg, passes(k))
  }

  /** Of the events due at the horizon at least n are not any more, none joined them, and nothing is about to. */
  predicate Drained(cfg: Config, start: State, s: State, horizon: Time, n: nat) {
    && start.now <= s.now && NoneSoon(s, horizon) && Steady(s.rows, start.now, horizon)
    && DueSet(s.rows, horizon) <= DueSet(start.rows, horizon)
    && |DueSet(s.rows, horizon)| <= Left(|DueSet(start.rows, horizon)|, n)
  }

  lemma DrainedQuiet(cfg: Config, start: State, s: State, s': State, horizon: Time, n: nat)
    requires Drained(cfg, start, s, horizon, n) && horizon < start.now + cfg.pause
    requires Quiet(cfg, s, s', horizon) && s.now <= s'.now
    ensures Drained(cfg, start, s', horizon, n)
  {
    SteadyStays(s.rows, s'.rows, start.now, horizon);
    UndisturbedShrinks(s.rows, s'.rows, horizon);
    SubsetCount(DueSet(s'.rows, horizon), DueSet(s.rows, horizon));
  }

  lemma DrainedPass(cfg: Config, start: State, s: State, s': State, ids: seq<EventId>, horizon: Time, n: nat, batch: nat)
    requires Drained(cfg, start, s, horizon, n) && s.now <= horizon < start.now + cfg.pause
    requires Quiet(cfg, s, s', horizon) && s.now <= s'.now && PassDrained(cfg, s, s', ids, horizon, batch)
    ensures Drained(cfg, start, s', horizon, n + batch)
  {
    DrainedQuiet(cfg, start, s, s', horizon, n);
  }

  lemma NextMultiple(k: nat, batch: nat)
    ensures (k + 1) * batch == k * batch + batch
  {
  }

  /** Of the events due at the horizon n are not any more, all of them if there were no more than n, and none joined them. */
  predicate RoundsDrained(rows: Table, rows': Table, horizon: Time, n: nat) {
    && DueSet(rows', horizon) <= DueSet(rows, horizon)
    && |DueSet(rows', horizon)| <= Left(|DueSet(rows, horizon)|, n)
    && (n >= |DueSet(rows, horizon)| ==> DueSet(rows', horizon) == {})
  }
}
