/**
 Runs in which nothing becomes due: no arrivals, no aborted sends, and no retry scheduled earlier than
 the smallest backoff after its failure.
 */
module Calm {
  import opened Options
  import opened Deliveries
  import opened Outbox
  import opened OutboxInvariant

  predicate CalmOutcome(cfg: Config, o: SendOutcome) {
    o.Err? ==> o.wait >= cfg.pause && !o.error.Aborted?
  }

  predicate CalmMove(cfg: Config, m: Move) {
    match m
    case SaveParts(_, ok, wait) => ok || wait >= cfg.pause
    case Send(outcome) => CalmOutcome(cfg, outcome)
    case MarkChunk(ok, wait) => ok || wait >= cfg.pause
    case MarkDelivered(_, ok, wait) => ok || wait >= cfg.pause
    case _ => true
  }

  predicate CalmAction(cfg: Config, a: Action) {
    match a
    case Create(_, _, _, _) => false
    case MarkQueued(_, _) => false
    case Restart => false
    case Act(_, m) => CalmMove(cfg, m)
    case _ => true
  }

  predicate LaterGoal(goal: Goal, t: Time) {
    goal.SendRetry? || goal.AbortRetry? || goal.StoreRetry? ==> goal.at > t
  }

  predicate LaterOwner(o: Owner, t: Time) {
    o.phase.Closing? ==> LaterGoal(o.phase.goal, t)
  }

  /** No claim that is about to end will schedule its row for time t or before. */
  predicate NoneSoon(s: State, t: Time) {
    forall w :: w in s.workers && s.workers[w].Owning? ==> LaterOwner(s.workers[w].own, t)
  }

  /** A row that is due at t was there before, as it is. */
  predicate Undisturbed(rows: Table, rows': Table, t: Time) {
    forall e :: e in rows' && Due(rows'[e], t) ==> e in rows && rows'[e] == rows[e]
  }

  lemma UndisturbedShrinks(rows: Table, rows': Table, t: Time)
    requires Undisturbed(rows, rows', t)
    ensures DueSet(rows', t) <= DueSet(rows, t)
  {
  }

  lemma CalmMoveKeeps(cfg: Config, now: Time, l: Local, m: Move, t: Time)
    requires l.own.Some? && CanMove(l.own.value, now, m)
    requires t < now + cfg.pause && LaterOwner(l.own.value, t) && CalmMove(cfg, m) && l.row.status.Sending?
    ensures var l' := MoveEffect(cfg, now, l, m);
            !Due(l'.row, t) && (l'.own.Some? ==> LaterOwner(l'.own.value, t))
  {
  }

  lemma CalmActStep(cfg: Config, s: State, a: Action, t: Time)
    requires Inv(cfg, s) && t < s.now + cfg.pause && NoneSoon(s, t) && CalmAction(cfg, a)
    requires a.Act? && Enabled(cfg, s, a) && s.workers[a.w].Owning?
    ensures NoneSoon(Step(cfg, s, a), t) && Undisturbed(s.rows, Step(cfg, s, a).rows, t)
  {
    var o := s.workers[a.w].own;
    assert WorkerFits(s, a.w) && EventFits(cfg, s, o.ev);
    CalmMoveKeeps(cfg, s.now, Local(s.rows[o.ev], s.hist[o.ev], Some(o)), a.move, t);
  }

  lemma ClockStep(cfg: Config, s: State, a: Action)
    ensures s.now <= Step(cfg, s, a).now
  {
  }

  /** A calm step schedules nothing for time t or before; a claim takes its row out of the due ones. */
  lemma CalmStep(cfg: Config, s: State, a: Action, t: Time)
    requires Inv(cfg, s) && t < s.now + cfg.pause && NoneSoon(s, t) && CalmAction(cfg, a)
    ensures var s' := Step(cfg, s, a);
            && s.now <= s'.now && NoneSoon(s', t) && Undisturbed(s.rows, s'.rows, t)
            && (a.Claim? && Enabled(cfg, s, a) ==> a.e !in DueSet(s'.rows, t))
  {
    ClockStep(cfg, s, a);
    if a.Act? && Enabled(cfg, s, a) && s.workers[a.w].Owning? {
      CalmActStep(cfg, s, a, t);
    }
  }

  /** Over a calm run, with a horizon t closer than the smallest backoff, whatever is due at t was due all along. */
  lemma {:induction false} CalmRun(cfg: Config, s: State, acts: seq<Action>, t: Time)
    requires ValidConfig(cfg) && Inv(cfg, s) && Disciplined(cfg, s, acts)
    requires t < s.now + cfg.pause && NoneSoon(s, t) && forall a :: a in acts ==> CalmAction(cfg, a)
    ensures var s' := After(cfg, s, acts);
            s.now <= s'.now && NoneSoon(s', t) && Undisturbed(s.rows, s'.rows, t)
    decreases |acts|
  {
    if acts != [] {
      CalmStep(cfg, s, acts[0], t);
      StepKeeps(cfg, s, acts[0]);
      CalmRun(cfg, Step(cfg, s, acts[0]), acts[1..], t);
    }
  }
}
