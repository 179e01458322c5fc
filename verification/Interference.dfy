/** What other goroutines do between two statements of one goroutine. */
module Interference {
  import opened Options
  import opened Deliveries
  import opened Outbox
  import opened OutboxInvariant
  import opened OutboxTheorems

  /** A disciplined run leads from s0 to s. */
  predicate Reached(cfg: Config, s0: State, trace: seq<Action>, s: State) {
    Disciplined(cfg, s0, trace) && s == After(cfg, s0, trace)
  }

  lemma ReachedOn(cfg: Config, s0: State, trace: seq<Action>, s: State, more: seq<Action>, s': State)
    requires Reached(cfg, s0, trace, s) && Reached(cfg, s, more, s')
    ensures Reached(cfg, s0, trace + more, s')
  {
    AfterConcat(cfg, s0, trace, more);
  }

  lemma ReachedStep(cfg: Config, s0: State, trace: seq<Action>, s: State, a: Action)
    requires Reached(cfg, s0, trace, s) && Gate(s, a)
    ensures Reached(cfg, s0, trace + [a], Step(cfg, s, a))
  {
    assert After(cfg, s, [a]) == Step(cfg, s, a);
    ReachedOn(cfg, s0, trace, s, [a], Step(cfg, s, a));
  }

  /** The goroutine of an action, if it is the action of one. */
  function Actor(a: Action): Option<WorkerId> {
    match a
    case Create(w, _, _, _) => Some(w)
    case MarkQueued(w, _) => Some(w)
    case Claim(w, _, _) => Some(w)
    case Act(w, _) => Some(w)
    case _ => None
  }

  /** An action of someone else, in the same life of the process. */
  predicate Foreign(w: WorkerId, a: Action) {
    Actor(a) != Some(w) && !a.Crash? && !a.Restart?
  }

  /** The actions of `acts` that are allowed and disciplined where they come up. */
  function Played(cfg: Config, allow: Action -> bool, s: State, acts: seq<Action>): (trace: seq<Action>)
    ensures Disciplined(cfg, s, trace)
    ensures forall a :: a in trace ==> a in acts && allow(a)
    decreases |acts|
  {
    if acts == [] then []
    else if allow(acts[0]) && Gate(s, acts[0])
    then [acts[0]] + Played(cfg, allow, Step(cfg, s, acts[0]), acts[1..])
    else Played(cfg, allow, s, acts[1..])
  }

  /** Nobody else touches a goroutine's own state. */
  lemma ForeignStepKeepsWorker(cfg: Config, w: WorkerId, s: State, a: Action)
    requires Foreign(w, a)
    ensures var s' := Step(cfg, s, a);
            && (w in s'.workers <==> w in s.workers)
            && (w in s.workers ==> s'.workers[w] == s.workers[w])
            && s'.up == s.up && s.now <= s'.now
  {
  }

  lemma {:induction false} ForeignKeepsWorker(cfg: Config, w: WorkerId, s: State, acts: seq<Action>)
    requires forall a :: a in acts ==> Foreign(w, a)
    ensures var s' := After(cfg, s, acts);
            && (w in s'.workers <==> w in s.workers)
            && (w in s.workers ==> s'.workers[w] == s.workers[w])
            && s'.up == s.up && s.now <= s'.now
    decreases |acts|
  {
    if acts != [] {
      ForeignStepKeepsWorker(cfg, w, s, acts[0]);
      ForeignKeepsWorker(cfg, w, Step(cfg, s, acts[0]), acts[1..]);
    }
  }

  /** Nobody else writes to a row that a goroutine owns, nor deletes it. */
  lemma ForeignStepKeepsOwnRow(cfg: Config, w: WorkerId, e: EventId, s: State, a: Action)
    requires ValidConfig(cfg) && Inv(cfg, s) && Gate(s, a) && Foreign(w, a)
    requires w in s.workers && s.workers[w].Owning? && s.workers[w].own.ev == e
    ensures e in s.rows && e in Step(cfg, s, a).rows && Step(cfg, s, a).rows[e] == s.rows[e]
  {
    assert WorkerFits(s, w) && HolderFits(s, e) && EventFits(cfg, s, e);
    assert s.rows[e].status.Sending?;
    if a.Act? && Enabled(cfg, s, a) && s.workers[a.w].Owning? {
      assert WorkerFits(s, a.w);
    } else if a.Delete? && Enabled(cfg, s, a) {
      assert SelectedFits(cfg, s, e) || e !in a.ids;
    } else if a.MarkQueued? {
      assert Owned(s, e);
    }
  }

  lemma {:induction false} ForeignKeepsOwnRow(cfg: Config, w: WorkerId, e: EventId, s: State, acts: seq<Action>)
    requires ValidConfig(cfg) && Inv(cfg, s) && Disciplined(cfg, s, acts) && forall a :: a in acts ==> Foreign(w, a)
    requires w in s.workers && s.workers[w].Owning? && s.workers[w].own.ev == e
    ensures e in s.rows && e in After(cfg, s, acts).rows && After(cfg, s, acts).rows[e] == s.rows[e]
    decreases |acts|
  {
    if acts == [] {
      assert WorkerFits(s, w) && HolderFits(s, e);
    } else {
      ForeignStepKeepsOwnRow(cfg, w, e, s, acts[0]);
      ForeignStepKeepsWorker(cfg, w, s, acts[0]);
      StepKeeps(cfg, s, acts[0]);
      ForeignKeepsOwnRow(cfg, w, e, Step(cfg, s, acts[0]), acts[1..]);
    }
  }

  /** A goroutine's call to Telegram, whatever the others do after it, and the status write that ends the claim. */
  function SendThenClose(cfg: Config, s: State, w: WorkerId, outcome: SendOutcome, others: seq<Action>, at: Time): State {
    Step(cfg, After(cfg, Step(cfg, s, Act(w, Send(outcome))), others), Act(w, Close(at, true)))
  }

  /** The status and retry time a failed send at time `now` leads to, on the attempt the row counts. */
  predicate ErrorAnswered(cfg: Config, now: Time, was: Row, error: SendError, wait: nat, row: Row) {
    var exhausted := was.attempts >= cfg.maxAttempts;
    && (row.status.Failed? <==> error.Fatal?)
    && (row.status.DeadLetter? <==> (error.Retryable? || error.Network?) && exhausted)
    && (row.status.RetryScheduled? <==> error.Aborted? || ((error.Retryable? || error.Network?) && !exhausted))
    && (row.status.RetryScheduled? <==> row.nextRetryAt.Some?)
    && (error.Aborted? ==> row.nextRetryAt == Some(now))
    && (row.status.RetryScheduled? && !error.Aborted? ==>
          && row.nextRetryAt.value >= now + wait
          && (error.Retryable? ==> row.nextRetryAt.value >= now + error.after)
          && (row.nextRetryAt.value == now + wait || (error.Retryable? && row.nextRetryAt.value == now + error.after)))
    && row.parts == was.parts && row.sentParts == was.sentParts && row.attempts == was.attempts
  }

  lemma SendFails(cfg: Config, s: State, w: WorkerId, outcome: SendOutcome) returns (goal: Goal)
    requires ValidConfig(cfg) && Inv(cfg, s) && s.up && Enabled(cfg, s, Act(w, Send(outcome))) && outcome.Err?
    ensures var o, s1 := s.workers[w].own, Step(cfg, s, Act(w, Send(outcome)));
            && goal == GoalAfter(cfg, s.now, o.snap, outcome.error, outcome.wait)
            && Inv(cfg, s1) && s1.up && s1.rows == s.rows && o.snap.attempts == s.rows[o.ev].attempts
            && w in s1.workers && s1.workers[w] == Owning(o.(phase := Closing(goal)))
  {
    var o := s.workers[w].own;
    assert WorkerFits(s, w) && EventFits(cfg, s, o.ev);
    StepKeeps(cfg, s, Act(w, Send(outcome)));
    goal := GoalAfter(cfg, s.now, o.snap, outcome.error, outcome.wait);
  }

  lemma CloseWrites(cfg: Config, s: State, w: WorkerId, e: EventId, goal: Goal, at: Time)
    requires Inv(cfg, s) && s.up && at <= s.now && w in s.workers && s.workers[w].Owning?
    requires s.workers[w].own.ev == e && s.workers[w].own.phase == Closing(goal)
    ensures e in s.rows && w !in Step(cfg, s, Act(w, Close(at, true))).workers
    ensures Step(cfg, s, Act(w, Close(at, true))).rows == s.rows[e := GoalRow(s.rows[e], goal, at)]
  {
    assert WorkerFits(s, w) && HolderFits(s, e);
  }

  lemma GoalAnswers(cfg: Config, sentAt: Time, snap: Row, was: Row, outcome: SendOutcome, now: Time)
    requires outcome.Err? && snap.attempts == was.attempts
    ensures ErrorAnswered(cfg, sentAt, was, outcome.error, outcome.wait,
                          GoalRow(was, GoalAfter(cfg, sentAt, snap, outcome.error, outcome.wait), now))
  {
  }

  /**
   The row that the closing write leaves after a send error: failed exactly when the error is fatal, dead
   letter exactly when the attempts are used up, otherwise a retry that waits the larger of backoff and
   retry_after, counted from the send; parts and progress as at the send, whatever the others did.
   */
  lemma RetryAfterRespected(cfg: Config, s: State, w: WorkerId, outcome: SendOutcome, others: seq<Action>, at: Time)
    requires ValidConfig(cfg) && Reachable(cfg, s) && s.up && Enabled(cfg, s, Act(w, Send(outcome))) && outcome.Err?
    requires Disciplined(cfg, Step(cfg, s, Act(w, Send(outcome))), others) && forall a :: a in others ==> Foreign(w, a)
    requires at <= After(cfg, Step(cfg, s, Act(w, Send(outcome))), others).now
    ensures var e, s' := s.workers[w].own.ev, SendThenClose(cfg, s, w, outcome, others, at);
            e in s'.rows && w !in s'.workers && ErrorAnswered(cfg, s.now, s.rows[e], outcome.error, outcome.wait, s'.rows[e])
  {
    ReachableInv(cfg, s);
    var o, s1 := s.workers[w].own, Step(cfg, s, Act(w, Send(outcome)));
    var goal := SendFails(cfg, s, w, outcome);
    ForeignKeepsOwnRow(cfg, w, o.ev, s1, others);
    ForeignKeepsWorker(cfg, w, s1, others);
    RunKeeps(cfg, s1, others);
    CloseWrites(cfg, After(cfg, s1, others), w, o.ev, goal, at);
    GoalAnswers(cfg, s.now, o.snap, s.rows[o.ev], outcome, at);
  }

}
