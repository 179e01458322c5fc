/** What a rotation meets and what it has done when it ends; the capacity check around it. */
module RotationRuns {
  import opened Options
  import opened Deliveries
  import opened Storage
  import opened Outbox
  import opened OutboxInvariant
  import opened OutboxTheorems
  import opened Interference
  import opened Calm
  import opened Attempts
  import opened Rotation

  /**
   sizes(k): the k-th measurement of the store, None when it fails. cancelled, selects and deletes are
   those of the k-th round. The others act between the samplings of the two cutoffs (sampling), before
   the first SELECT (before), and before and after the DELETE of each round (others). `last` is the
   measurement after the loop.
   */
  datatype RotationEnv = RotationEnv(
    sizes: nat -> Option<int>,
    cancelled: nat -> bool,
    selects: nat -> bool,
    deletes: nat -> nat -> bool,
    sampling: seq<Action>,
    before: seq<Action>,
    others: nat -> seq<Action>,
    last: Option<int>)

  /** Every measurement and statement of the rotation succeeds and nobody cancels it. */
  ghost predicate SmoothRotation(env: RotationEnv) {
    && (forall k :: env.sizes(k).Some?) && env.last.Some?
    && (forall k :: !env.cancelled(k))
    && (forall k :: env.selects(k))
    && (forall k, j :: env.deletes(k)(j))
  }

  /** How one round ended: nothing rotatable, rows removed and the store measured, or an error. */
  datatype RoundStep = Nothing | Removal(size: int) | RoundError

  datatype RotationResult = RotationSkipped | RotationDone(size: int) | RotationError

  /** No earlier measurement than the k-th is at or below the low watermark, and none of the k rounds was cancelled. */
  ghost predicate Shrunk(env: RotationEnv, low: int, k: nat, size: int) {
    && env.sizes(k) == Some(size)
    && (forall j: nat :: j < k ==> env.sizes(j).Some? && env.sizes(j).value > low)
    && (forall j: nat :: j < k ==> !env.cancelled(j) && env.selects(j))
  }

  lemma ShrunkNext(env: RotationEnv, low: int, k: nat, size: int, size': int)
    requires Shrunk(env, low, k, size) && size > low && env.sizes(k + 1) == Some(size') && !env.cancelled(k) && env.selects(k)
    ensures Shrunk(env, low, k + 1, size')
  {
  }

  /** The two cutoffs of a rotation, its rounds and the rows it removed. */
  datatype RotationLog = RotationLog(deliveredBefore: Time, terminalBefore: Time, rounds: nat, gone: map<EventId, Row>)

  /** The loop stopped at the first measurement at or below the low watermark, or because nothing is rotatable under the cutoffs. */
  ghost predicate Stopped(cfg: Config, start: State, s: State, low: int, env: RotationEnv, size: int, log: RotationLog) {
    && log.deliveredBefore == start.now - cfg.retentionDelivered && start.now - cfg.retentionDeadLetter <= log.terminalBefore
    && CutoffsPassed(cfg, s.now, log.deliveredBefore, log.terminalBefore)
    && Shrunk(env, low, log.rounds, size)
    && (size <= low || (RotatableSet(s.rows, log.deliveredBefore, log.terminalBefore) == {}
                        && !env.cancelled(log.rounds) && env.selects(log.rounds)))
  }

  /** A hundred rows a round were removed as long as there were, those unchanged longest first, and counted by state. */
  predicate Cleared(s: State, tally: Tally, log: RotationLog) {
    && Tallies(log.gone, tally) && tally.Total() == |log.gone| && Removed(s, log.gone)
    && OldestFirst(s.rows, log.gone, log.deliveredBefore, log.terminalBefore)
    && AsMany(s.rows, log.deliveredBefore, log.terminalBefore, log.gone, log.rounds)
  }

  /** They are exactly the events that were in the table or came in and are not in it any more. */
  predicate ExactlyGone(start: State, s: State, gone: map<EventId, Row>) {
    && gone.Keys == start.rows.Keys + (s.hist.Keys - start.hist.Keys) - s.rows.Keys
    && gone.Keys * start.rows.Keys == start.rows.Keys - s.rows.Keys
  }

  /** A rotation that began in `start` and ended in s without an error. */
  ghost predicate RotationRan(cfg: Config, start: State, s: State, low: int, env: RotationEnv, size: int, tally: Tally, log: RotationLog) {
    Stopped(cfg, start, s, low, env, size, log) && Cleared(s, tally, log) && ExactlyGone(start, s, log.gone)
  }

  lemma RotationClears(start: State, s: State, tally: Tally, log: RotationLog)
    requires RotationFits(start, s, log.deliveredBefore, log.terminalBefore, tally, log.gone, log.rounds)
    ensures Cleared(s, tally, log)
  {
    TallyTotal(log.gone, tally);
    SelectionCounts(start.rows, s.rows, log.deliveredBefore, log.terminalBefore, log.gone, log.rounds);
  }

  lemma RotationReports(cfg: Config, s0: State, start: State, s: State, low: int, env: RotationEnv, size: int, tally: Tally, log: RotationLog)
    requires s0.rows.Keys <= s0.hist.Keys && start.rows.Keys <= start.hist.Keys && s.rows.Keys <= s.hist.Keys && OnlyInserts(s0, start)
    requires log.deliveredBefore == s0.now - cfg.retentionDelivered && s0.now - cfg.retentionDeadLetter <= log.terminalBefore
    requires CutoffsPassed(cfg, s.now, log.deliveredBefore, log.terminalBefore)
    requires Cleared(s, tally, log) && Accounts(start, s, log.gone) && Shrunk(env, low, log.rounds, size)
    requires size <= low || (RotatableSet(s.rows, log.deliveredBefore, log.terminalBefore) == {}
                             && !env.cancelled(log.rounds) && env.selects(log.rounds))
    ensures RotationRan(cfg, s0, s, low, env, size, tally, log)
  {
    AccountsFrom(s0, start, s, log.gone);
  }

  /** Only selects and deletes of rotation rounds. */
  predicate Rotates(past: seq<Action>, run: seq<Action>) {
    past <= run && forall a :: a in run[|past|..] ==> a.Select? || a.Delete? || a.Drop?
  }

  lemma RotatesNext(past: seq<Action>, run: seq<Action>, a: Action)
    requires Rotates(past, run) && (a.Select? || a.Delete? || a.Drop?)
    ensures Rotates(past, run + [a])
  {
  }

  lemma RotatesJoin(r0: seq<Action>, r1: seq<Action>, r2: seq<Action>)
    requires Rotates(r0, r1) && Rotates(r1, r2)
    ensures Rotates(r0, r2)
  {
  }

  /** Nobody else acts during the rotation. */
  ghost predicate LonelyRotation(env: RotationEnv) {
    env.sampling == [] && env.before == [] && forall k :: env.others(k) == []
  }

  lemma RotationStep(cfg: Config, s: State, a: Action)
    requires Inv(cfg, s) && (a.Select? || a.Delete? || a.Drop?)
    ensures var s' := Step(cfg, s, a);
            && s'.rows.Keys <= s.rows.Keys && s'.workers == s.workers && s'.now == s.now
            && (forall e :: e in s.rows && !Terminal(s.rows[e].status) ==> e in s'.rows)
            && (forall e :: e in s'.rows ==> s'.rows[e] == s.rows[e])
  {
    if a.Delete? && Enabled(cfg, s, a) {
      forall e | e in a.ids
        ensures e in s.rows && Terminal(s.rows[e].status)
      {
        assert SelectedFits(cfg, s, e);
      }
    }
  }

  /** A rotation alone takes final rows out of the table and does nothing else to it. */
  lemma {:induction false} RotationRun(cfg: Config, s: State, acts: seq<Action>)
    requires ValidConfig(cfg) && Inv(cfg, s) && Disciplined(cfg, s, acts)
    requires forall a :: a in acts ==> a.Select? || a.Delete? || a.Drop?
    ensures var s' := After(cfg, s, acts);
            && s'.rows.Keys <= s.rows.Keys && s'.workers == s.workers && s'.now == s.now
            && (forall e :: e in s.rows && !Terminal(s.rows[e].status) ==> e in s'.rows)
            && (forall e :: e in s'.rows ==> s'.rows[e] == s.rows[e])
    decreases |acts|
  {
    if acts != [] {
      RotationStep(cfg, s, acts[0]);
      StepKeeps(cfg, s, acts[0]);
      RotationRun(cfg, Step(cfg, s, acts[0]), acts[1..]);
    }
  }

  lemma RotatesKeep(cfg: Config, r1: seq<Action>, s1: State, r2: seq<Action>, s2: State)
    requires ValidConfig(cfg) && Reached(cfg, INIT, r1, s1) && Reached(cfg, INIT, r2, s2) && Rotates(r1, r2)
    ensures s2.rows.Keys <= s1.rows.Keys && s2.workers == s1.workers && s2.now == s1.now
    ensures forall e :: e in s1.rows && !Terminal(s1.rows[e].status) ==> e in s2.rows
    ensures forall e :: e in s2.rows ==> s2.rows[e] == s1.rows[e]
  {
    ReachedInv(cfg, r1, s1);
    ReachedBetween(cfg, r1, s1, r2, s2);
    RotationRun(cfg, s1, r2[|r1|..]);
  }

  /** The watermarks of the store, in bytes, and whether rotation is enabled. */
  datatype Limits = Limits(enabled: bool, high: int, low: int, max: int)

  /** The two measurements of EnsureCapacity; what happens while it waits for the mutex and how the round it waits for ends. */
  datatype CapacityEnv = CapacityEnv(
    first: Option<int>,
    waiting: seq<Action>,
    deletes: bool,
    rotation: RotationEnv,
    second: Option<int>)

  /** Whatever leaves the table over a run was final and past its retention. */
  lemma LeftFinal(cfg: Config, r1: seq<Action>, s1: State, r2: seq<Action>, s2: State)
    requires ValidConfig(cfg) && Reached(cfg, INIT, r1, s1) && Reached(cfg, INIT, r2, s2) && r1 <= r2
    ensures forall e :: e in s1.rows ==> e in s2.hist && (e in s2.rows || OutlivedBy(cfg, s2, e, s2.now))
  {
    ReachedInv(cfg, r1, s1);
    ReachedInv(cfg, r2, s2);
    ReachedBetween(cfg, r1, s1, r2, s2);
    RunKeeps(cfg, s1, r2[|r1|..]);
    forall e | e in s1.rows
      ensures e in s2.hist && (e in s2.rows || OutlivedBy(cfg, s2, e, s2.now))
    {
      NoLiveRecordLost(cfg, s2, e);
    }
  }
}
