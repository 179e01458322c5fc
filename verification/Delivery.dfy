/**
 The delivery service: delivery attempts, the recovery loop, rotation and the capacity check, statement by
 statement, with the other goroutines acting in between (internal/service/delivery_service.go:71-347, 545-613).

 The clock, store failures, Telegram's answers, the rendered message and the other goroutines come
 from an `Env`. `sys` is the whole system; `run` records its steps, so every state the service goes
 through is a state of the step system and its theorems apply.
 */
module Delivery {
  import opened Options
  import opened Deliveries
  import opened Storage
  import opened Outbox
  import opened OutboxInvariant
  import opened OutboxTheorems
  import opened Interference
  import opened Calm
  import opened Attempts
  import opened Passes
  import opened Rotation
  import opened RotationRuns

  class DeliveryService {
    const cfg: Config
    const store: Store
    var sys: State
    ghost var run: seq<Action>

    ghost predicate Valid()
      reads this, store
    {
      ValidConfig(cfg) && Reached(cfg, INIT, run, sys) && store.rows == sys.rows
    }

    /** The process starts: RequeueSending runs before any goroutine (cmd/server/main.go:51). */
    constructor (cfg: Config)
      requires ValidConfig(cfg)
      ensures Valid() && fresh(store) && this.cfg == cfg && sys.up && sys.rows == map[] && sys.workers == map[] && sys.selected == {}
    {
      this.cfg := cfg;
      var st := new Store();
      st.RequeueSending(0, 0);
      this.store := st;
      sys := Step(cfg, INIT, Restart);
      run := [Restart];
      new;
      assert After(cfg, INIT, [Restart]) == After(cfg, Step(cfg, INIT, Restart), []);
    }

    /** The steps since an earlier point of the run. */
    ghost function Since(past: seq<Action>): seq<Action>
      reads this
      requires past <= run
    {
      run[|past|..]
    }

    /** Books the statement or call that was just made as a step of the system. */
    method Book(a: Action)
      requires ValidConfig(cfg) && Reached(cfg, INIT, run, sys) && Gate(sys, a)
      requires store.rows == Step(cfg, sys, a).rows
      modifies this
      ensures Valid() && sys == Step(cfg, old(sys), a) && run == old(run) + [a]
    {
      ReachedStep(cfg, INIT, run, sys, a);
      sys := Step(cfg, sys, a);
      run := run + [a];
    }

    /** Others take these steps, and leave goroutine w alone. */
    method Play(w: WorkerId, trace: seq<Action>)
      requires Valid() && Disciplined(cfg, sys, trace) && forall a :: a in trace ==> Foreign(w, a)
      modifies this, store
      ensures Valid() && run == old(run) + trace && sys == After(cfg, old(sys), trace)
      ensures sys.up == old(sys.up) && old(sys.now) <= sys.now
      ensures w in sys.workers <==> w in old(sys.workers)
      ensures w in sys.workers ==> sys.workers[w] == old(sys.workers[w])
    {
      ForeignKeepsWorker(cfg, w, sys, trace);
      ReachedOn(cfg, INIT, run, sys, trace, After(cfg, sys, trace));
      sys := After(cfg, sys, trace);
      store.rows := sys.rows;
      run := run + trace;
    }

    /** A scheduling point of goroutine w: the others do of `acts` what is allowed and disciplined. */
    method Yield(w: WorkerId, acts: seq<Action>, allow: Action -> bool)
      requires Valid() && forall a :: allow(a) ==> Foreign(w, a)
      modifies this, store
      ensures Valid() && old(run) <= run && sys.up == old(sys.up) && old(sys.now) <= sys.now
      ensures w in sys.workers <==> w in old(sys.workers)
      ensures w in sys.workers ==> sys.workers[w] == old(sys.workers[w])
      ensures forall a :: a in Since(old(run)) ==> a in acts && allow(a)
      ensures Reached(cfg, old(sys), Since(old(run)), sys)
      ensures acts == [] ==> sys == old(sys) && run == old(run)
      ensures AllCalm(cfg, acts) ==> CalmBetween(cfg, old(run), run)
    {
      Play(w, Played(cfg, allow, sys, acts));
    }

    /** Goroutine w is inside ProcessEventByID with this record, in this phase. */
    ghost predicate Holds(w: WorkerId, e: EventId, snap: Row, phase: Phase)
      reads this
    {
      sys.up && w in sys.workers && sys.workers[w] == Owning(Owner(e, snap, phase))
    }

    lemma OwnRow(w: WorkerId, e: EventId, snap: Row, phase: Phase)
      requires Valid() && Holds(w, e, snap, phase)
      ensures e in sys.rows && e in sys.hist && OwnerFits(cfg, sys.rows[e], Owner(e, snap, phase))
    {
      ReachedInv(cfg, run, sys);
      assert WorkerFits(sys, w) && HolderFits(sys, e) && EventFits(cfg, sys, e);
    }

    /** The k-th scheduling point of a claim: nobody touches the claimed row. */
    method YieldOwn(w: WorkerId, e: EventId, snap: Row, phase: Phase, env: Env, k: nat)
      requires Valid() && Holds(w, e, snap, phase)
      modifies this, store
      ensures Valid() && Holds(w, e, snap, phase) && old(sys.now) <= sys.now && Tame(cfg, w, env, old(run), run)
      ensures e in old(sys.rows) && e in sys.rows && e in sys.hist && sys.rows[e] == old(sys.rows)[e]
      ensures OwnerFits(cfg, sys.rows[e], Owner(e, snap, phase))
    {
      ReachedInv(cfg, run, sys);
      OwnRow(w, e, snap, phase);
      Yield(w, env.others(k), a => Foreign(w, a));
      ForeignKeepsOwnRow(cfg, w, e, old(sys), Since(old(run)));
      OwnRow(w, e, snap, phase);
      TameForeign(cfg, w, env, old(run), run);
    }

    /** The claimed event as its owner sees it. */
    ghost function Mine(e: EventId, snap: Row, phase: Phase): Local
      reads this
      requires e in sys.rows && e in sys.hist
    {
      Local(sys.rows[e], sys.hist[e], Some(Owner(e, snap, phase)))
    }

    /** Books a statement or call of the owner of e; `row` is what it left in the table. */
    method BookMove(w: WorkerId, e: EventId, snap: Row, phase: Phase, m: Move, ghost row: Row)
      requires ValidConfig(cfg) && Reached(cfg, INIT, run, sys) && Holds(w, e, snap, phase) && e in sys.rows && e in sys.hist
      requires CanMove(Owner(e, snap, phase), sys.now, m)
      requires row == MoveEffect(cfg, sys.now, Mine(e, snap, phase), m).row && store.rows == sys.rows[e := row]
      modifies this
      ensures Valid() && sys.up && run == old(run) + [Act(w, m)] && sys.now == old(sys.now) && sys.rows == old(sys.rows)[e := row]
      ensures var l := old(MoveEffect(cfg, sys.now, Mine(e, snap, phase), m));
              if l.own.Some? then Holds(w, e, snap, l.own.value.phase) else w !in sys.workers
    {
      OwnerKept(cfg, sys.now, Mine(e, snap, phase), m);
      Book(Act(w, m));
    }

    /** The status write that ends a claim, with the time of the call. Its failure leaves the row in `sending`. */
    method Finish(w: WorkerId, e: EventId, snap: Row, goal: Goal, env: Env)
      requires Valid() && Holds(w, e, snap, Closing(goal))
      modifies this, store
      ensures Valid() && sys.up && w !in sys.workers && old(sys.now) <= sys.now && Tame(cfg, w, env, old(run), run)
      ensures e in old(sys.rows) && e in sys.rows
      ensures sys.rows[e] == if env.writes(2) then GoalRow(old(sys.rows)[e], goal, old(sys.now)) else old(sys.rows)[e]
      ensures old(sys.rows)[e].status.Sending?
    {
      var at := sys.now;
      YieldOwn(w, e, snap, Closing(goal), env, 2);
      ghost var past := run;
      var io := env.writes(2);
      match goal {
        case Fail => store.MarkTerminal(e, Failed, at, io);
        case Dead => store.MarkTerminal(e, DeadLetter, at, io);
        case _ => store.ScheduleRetry(e, goal.at, at, io);
      }
      BookMove(w, e, snap, Closing(goal), Close(at, io), store.rows[e]);
      TameNext(cfg, w, env, old(run), past, Close(at, io));
    }

    /** A store write failed: the claim ends in a retry. */
    method FailStore(w: WorkerId, e: EventId, record: Row, nextRetry: Time, env: Env, ghost ending: Ending, ghost since: Time)
      requires Valid() && Holds(w, e, record, Closing(StoreRetry(nextRetry))) && e in sys.rows
      requires ending.SaveFailed? || ending.RecordFailed? || ending.CompletionFailed?
      requires Caused(env, record, ending) && EndedIn(ending, since, sys.now) && ProgressRow(env, record, ending, sys.rows[e])
      requires nextRetry == ending.at + StoreWait(env, ending)
      modifies this, store
      ensures Valid() && sys.up && w !in sys.workers && old(sys.now) <= sys.now && Tame(cfg, w, env, old(run), run)
      ensures ClaimEnded(cfg, env, e, record, ending, since, sys)
    {
      ghost var row, at := sys.rows[e], sys.now;
      Finish(w, e, record, StoreRetry(nextRetry), env);
      StoreFailureEnds(cfg, env, e, record, ending, since, row, at, sys);
    }

    /** The message cannot be built: the event fails for good. */
    method RenderFails(w: WorkerId, e: EventId, record: Row, env: Env, ghost since: Time)
      requires Valid() && Holds(w, e, record, Unrendered) && record.parts == [] && env.message.None? && since <= sys.now
      modifies this, store
      ensures Valid() && sys.up && w !in sys.workers && old(sys.now) <= sys.now && Tame(cfg, w, env, old(run), run)
      ensures ClaimEnded(cfg, env, e, record, Unbuilt, since, sys)
    {
      OwnRow(w, e, record, Unrendered);
      BookMove(w, e, record, Unrendered, RenderFailed, store.rows[e]);
      ghost var past := run;
      TameNext(cfg, w, env, old(run), old(run), RenderFailed);
      Finish(w, e, record, Fail, env);
      TameJoin(cfg, w, env, old(run), past, run);
    }

    method PersistParts(w: WorkerId, e: EventId, record: Row, parts: seq<string>, env: Env, ghost since: Time)
      returns (ok: bool, ghost ending: Ending)
      requires Valid() && Holds(w, e, record, Unrendered) && parts != []
      requires record.parts == [] && env.message == Some(parts) && since <= sys.now
      modifies this, store
      ensures Valid() && sys.up && old(sys.now) <= sys.now && Tame(cfg, w, env, old(run), run) && ok == env.writes(1)
      ensures ok ==> Holds(w, e, record, SendingFrom(parts, record.sentParts))
      ensures ok ==> e in sys.rows && sys.rows[e].parts == parts && sys.rows[e].splitCount == |parts|
      ensures !ok ==> w !in sys.workers && ending.SaveFailed? && ClaimEnded(cfg, env, e, record, ending, since, sys)
    {
      YieldOwn(w, e, record, Unrendered, env, 1);
      ghost var yielded := run;
      ok := env.writes(1);
      ending := SaveFailed(sys.now);
      store.SaveRenderedParts(e, parts, sys.now, ok);
      var nextRetry := sys.now + env.waits(1);
      BookMove(w, e, record, Unrendered, SaveParts(parts, ok, env.waits(1)), store.rows[e]);
      ghost var past := run;
      TameNext(cfg, w, env, old(run), yielded, SaveParts(parts, ok, env.waits(1)));
      if !ok {
        FailStore(w, e, record, nextRetry, env, ending, since);
        TameJoin(cfg, w, env, old(run), past, run);
      }
    }

    /** The parts to send: those persisted by an earlier attempt, or freshly built ones once they are persisted. */
    method EnsureRenderedParts(w: WorkerId, e: EventId, record: Row, env: Env, ghost since: Time)
      returns (parts: seq<string>, ok: bool, ghost ending: Ending)
      requires Valid() && Buildable(env) && since <= sys.now
      requires Holds(w, e, record, if record.parts == [] then Unrendered else SendingFrom(record.parts, record.sentParts))
      modifies this, store
      ensures Valid() && sys.up && old(sys.now) <= sys.now && Tame(cfg, w, env, old(run), run)
      ensures ok ==> Holds(w, e, record, SendingFrom(parts, record.sentParts))
      ensures record.parts != [] ==> ok && parts == record.parts
      ensures ok && record.parts == [] ==> env.message == Some(parts) && env.writes(1) && e in sys.rows && sys.rows[e].parts == parts
      ensures !ok ==> w !in sys.workers && (ending.Unbuilt? || ending.SaveFailed?) && ClaimEnded(cfg, env, e, record, ending, since, sys)
    {
      ok, ending := true, Unbuilt;
      if |record.parts| > 0 {
        parts := record.parts;
      } else if env.message.None? {
        RenderFails(w, e, record, env, since);
        parts, ok := [], false;
      } else {
        parts := env.message.value;
        ok, ending := PersistParts(w, e, record, parts, env, since);
      }
    }

    /**
     Chooses the write that answers a send error: retry at once after an abort, fail, bury, or retry
     later. If that write fails the row stays in `sending`.
     */
    method HandleSendError(w: WorkerId, e: EventId, record: Row, outcome: SendOutcome, now: Time, env: Env)
      requires Valid() && outcome.Err?
      requires Holds(w, e, record, Closing(GoalAfter(cfg, now, record, outcome.error, outcome.wait)))
      modifies this, store
      ensures Valid() && sys.up && w !in sys.workers && old(sys.now) <= sys.now && Tame(cfg, w, env, old(run), run)
      ensures e in old(sys.rows) && e in sys.rows && old(sys.rows)[e].status.Sending?
      ensures if env.writes(2) then ErrorAnswered(cfg, now, old(sys.rows)[e], outcome.error, outcome.wait, sys.rows[e])
              else sys.rows[e] == old(sys.rows)[e] && sys.rows[e].status.Sending?
    {
      OwnRow(w, e, record, Closing(GoalAfter(cfg, now, record, outcome.error, outcome.wait)));
      var goal: Goal;
      if outcome.error.Aborted? {
        goal := AbortRetry(now);
      } else if outcome.error.Fatal? {
        goal := Fail;
      } else if record.attempts >= cfg.maxAttempts {
        goal := Dead;
      } else {
        var wait := outcome.wait;
        if outcome.error.Retryable? && outcome.error.after > wait {
          wait := outcome.error.after;
        }
        goal := SendRetry(now + wait);
      }
      Finish(w, e, record, goal, env);
      GoalAnswers(cfg, now, record, old(sys.rows)[e], outcome, old(sys.now));
    }

    /** The statement that records an accepted part. */
    method NoteChunk(w: WorkerId, e: EventId, record: Row, parts: seq<string>, index: nat, id: int, env: Env) returns (ok: bool, at: Time)
      requires Valid() && Holds(w, e, record, Accepted(parts, index, id))
      modifies this, store
      ensures Valid() && old(sys.now) <= at == sys.now && Tame(cfg, w, env, old(run), run) && ok == env.writes(4 + index)
      ensures ok ==> Holds(w, e, record, SendingFrom(parts, index + 1))
      ensures !ok ==>
                && Holds(w, e, record, Closing(StoreRetry(at + env.waits(4 + index)))) && e in sys.rows
                && sys.rows[e].attempts == record.attempts && sys.rows[e].parts == parts && sys.rows[e].sentParts == index
    {
      YieldOwn(w, e, record, Accepted(parts, index, id), env, 5 + 2 * index);
      ghost var yielded := run;
      ok, at := env.writes(4 + index), sys.now;
      var wait := env.waits(4 + index);
      store.MarkChunkSent(e, index + 1, if index == 0 then Some(id) else None, at, ok);
      ChunkMove(cfg, at, Mine(e, record, Accepted(parts, index, id)), ok, wait);
      BookMove(w, e, record, Accepted(parts, index, id), MarkChunk(ok, wait), store.rows[e]);
      TameNext(cfg, w, env, old(run), yielded, MarkChunk(ok, wait));
    }

    /** Records an accepted part; if that fails, the claim ends in a retry that will send the part again. */
    method RecordChunk(w: WorkerId, e: EventId, record: Row, parts: seq<string>, index: nat, id: int, env: Env, ghost since: Time)
      returns (ok: bool, ghost ending: Ending)
      requires Valid() && Holds(w, e, record, Accepted(parts, index, id)) && since <= sys.now
      requires parts == Planned(env, record) && record.sentParts <= index < |parts|
      requires SentUpTo(env, record, index) && env.sends(index).Ack?
      modifies this, store
      ensures Valid() && sys.up && old(sys.now) <= sys.now && Tame(cfg, w, env, old(run), run) && ok == env.writes(4 + index)
      ensures ok ==> Holds(w, e, record, SendingFrom(parts, index + 1))
      ensures !ok ==> w !in sys.workers && !ending.Finished? && ClaimEnded(cfg, env, e, record, ending, since, sys)
    {
      var at;
      ok, at := NoteChunk(w, e, record, parts, index, id, env);
      ghost var past := run;
      ending := RecordFailed(index, at);
      if !ok {
        FailStore(w, e, record, at + env.waits(4 + index), env, ending, since);
        TameJoin(cfg, w, env, old(run), past, run);
      }
    }

    /** The call to Telegram with part `index`. */
    method CallTelegram(w: WorkerId, e: EventId, record: Row, parts: seq<string>, index: nat, env: Env) returns (outcome: SendOutcome, now: Time)
      requires Valid() && Holds(w, e, record, SendingFrom(parts, index)) && index < |parts|
      modifies this, store
      ensures Valid() && old(sys.now) <= now == sys.now && Tame(cfg, w, env, old(run), run) && outcome == env.sends(index)
      ensures outcome.Ack? ==> Holds(w, e, record, Accepted(parts, index, outcome.id))
      ensures outcome.Err? ==>
                && Holds(w, e, record, Closing(GoalAfter(cfg, now, record, outcome.error, outcome.wait))) && e in sys.rows
                && sys.rows[e].attempts == record.attempts && sys.rows[e].parts == parts && sys.rows[e].sentParts == index
    {
      YieldOwn(w, e, record, SendingFrom(parts, index), env, 4 + 2 * index);
      ghost var yielded := run;
      outcome, now := env.sends(index), sys.now;
      BookMove(w, e, record, SendingFrom(parts, index), Send(outcome), store.rows[e]);
      TameNext(cfg, w, env, old(run), yielded, Send(outcome));
    }

    /** Sends part `index` and records it. */
    method SendPart(w: WorkerId, e: EventId, record: Row, parts: seq<string>, index: nat, env: Env, ghost since: Time)
      returns (ok: bool, ghost ending: Ending)
      requires Valid() && Holds(w, e, record, SendingFrom(parts, index)) && since <= sys.now
      requires parts == Planned(env, record) && record.sentParts <= index < |parts| && SentUpTo(env, record, index)
      modifies this, store
      ensures Valid() && sys.up && old(sys.now) <= sys.now && Tame(cfg, w, env, old(run), run)
      ensures ok ==> Holds(w, e, record, SendingFrom(parts, index + 1)) && SentUpTo(env, record, index + 1)
      ensures !ok ==> w !in sys.workers && !ending.Finished? && ClaimEnded(cfg, env, e, record, ending, since, sys)
    {
      var outcome, now := CallTelegram(w, e, record, parts, index, env);
      ghost var past, row := run, if e in sys.rows then sys.rows[e] else record;
      match outcome {
        case Ack(id) =>
          ok, ending := RecordChunk(w, e, record, parts, index, id, env, since);
          if ok {
            SentNext(env, record, index);
          }
        case Err(_, _, _) =>
          HandleSendError(w, e, record, outcome, now, env);
          ok, ending := false, SendFailed(index, now);
          SendErrorEnds(cfg, env, e, record, index, now, since, row, sys);
      }
      TameJoin(cfg, w, env, old(run), past, run);
    }

    /** The statement that marks the event delivered, with a time sampled before it has the connection. */
    method NoteDelivered(w: WorkerId, e: EventId, record: Row, parts: seq<string>, index: nat, env: Env) returns (ok: bool, at: Time)
      requires Valid() && Holds(w, e, record, SendingFrom(parts, index)) && index >= |parts|
      modifies this, store
      ensures Valid() && sys.up && old(sys.now) <= at == sys.now && Tame(cfg, w, env, old(run), run) && ok == env.writes(3)
      ensures e in old(sys.rows) && e in sys.rows && old(sys.rows)[e].attempts == record.attempts && old(sys.rows)[e].parts == parts
      ensures ok ==> w !in sys.workers && sys.rows[e] == DeliveredRow(old(sys.rows)[e], |parts|, old(sys.now))
      ensures !ok ==> Holds(w, e, record, Closing(StoreRetry(at + env.waits(3)))) && sys.rows[e] == old(sys.rows)[e] && sys.rows[e].sentParts == |parts|
    {
      var deliveredAt := sys.now;
      OwnRow(w, e, record, SendingFrom(parts, index));
      ReachedInv(cfg, run, sys);
      assert EventFits(cfg, sys, e);
      YieldOwn(w, e, record, SendingFrom(parts, index), env, 3);
      ghost var yielded := run;
      ok, at := env.writes(3), sys.now;
      store.MarkDelivered(e, |parts|, deliveredAt, ok);
      BookMove(w, e, record, SendingFrom(parts, index), MarkDelivered(deliveredAt, ok, env.waits(3)), store.rows[e]);
      TameNext(cfg, w, env, old(run), yielded, MarkDelivered(deliveredAt, ok, env.waits(3)));
    }

    method CompleteDelivery(w: WorkerId, e: EventId, record: Row, parts: seq<string>, index: nat, env: Env, ghost since: Time)
      returns (ok: bool, ghost ending: Ending)
      requires Valid() && Holds(w, e, record, SendingFrom(parts, index)) && index >= |parts| && since <= sys.now
      requires parts == Planned(env, record) && SentUpTo(env, record, |parts|)
      modifies this, store
      ensures Valid() && sys.up && w !in sys.workers && old(sys.now) <= sys.now && Tame(cfg, w, env, old(run), run)
      ensures ok == env.writes(3) == ending.Finished? && ClaimEnded(cfg, env, e, record, ending, since, sys)
    {
      var at;
      ok, at := NoteDelivered(w, e, record, parts, index, env);
      if ok {
        ending := Finished;
        CompletionEnds(cfg, env, e, record, since, old(sys.rows)[e], old(sys.now), sys);
      } else {
        ending := CompletionFailed(at);
        ghost var past := run;
        FailStore(w, e, record, at + env.waits(3), env, ending, since);
        TameJoin(cfg, w, env, old(run), past, run);
      }
    }

    /** One claim, from the status gate to the last write. */
    method ClaimEvent(w: WorkerId, e: EventId, at: Time, env: Env) returns (claim: ClaimResult)
      requires Valid() && sys.up && w !in sys.workers && at <= sys.now
      modifies this, store
      ensures Valid() && sys.up && old(run) <= run && old(sys.now) <= sys.now && OnlyClaims(w, e, old(run), run)
      ensures if claim.Claimed? then Holds(w, e, claim.row, if claim.row.parts == [] then Unrendered else SendingFrom(claim.row.parts, claim.row.sentParts))
              else w !in sys.workers
      ensures claim.ClaimError? <==> !env.writes(0)
      ensures claim.NotClaimable? ==> !(e in sys.rows && Claimable(sys.rows[e].status))
      ensures env.writes(0) ==> ClaimedSince(run, |old(run)|, w, e)
      ensures env.others(0) == [] && env.writes(0) ==>
                (claim.Claimed? <==> e in old(sys.rows) && old(sys.rows)[e].status in {Received, Queued, RetryScheduled})
      ensures env.others(0) == [] && claim.Claimed? ==> claim.row == ClaimedRow(old(sys.rows)[e], at)
      ensures CalmEnv(cfg, env) ==> CalmBetween(cfg, old(run), run)
      ensures env.writes(0) ==> forall t :: e !in DueSet(sys.rows, t)
    {
      Yield(w, env.others(0), a => Foreign(w, a));
      OthersOnly(w, e, old(run), run);
      ReachedInv(cfg, run, sys);
      claim := store.ClaimForSend(e, at, env.writes(0));
      if !claim.ClaimError? {
        ghost var middle := run;
        Book(Claim(w, e, at));
        assert ClaimsAt(run, |middle|, w, e);
        OnlyClaimsNext(w, e, old(run), middle, at);
        if CalmEnv(cfg, env) {
          CalmNext(cfg, old(run), middle, Claim(w, e, at));
        }
      }
    }

    /** The send loop, from the first unsent part on, and the completion. */
    method SendParts(w: WorkerId, e: EventId, record: Row, parts: seq<string>, env: Env, ghost since: Time, ghost start: seq<Action>)
      returns (ok: bool, ghost ending: Ending)
      requires Valid() && Holds(w, e, record, SendingFrom(parts, record.sentParts)) && since <= sys.now
      requires parts == Planned(env, record) && SentUpTo(env, record, record.sentParts) && Tame(cfg, w, env, start, run)
      modifies this, store
      ensures Valid() && sys.up && w !in sys.workers && old(sys.now) <= sys.now && Tame(cfg, w, env, start, run)
      ensures ok == ending.Finished? && ClaimEnded(cfg, env, e, record, ending, since, sys)
    {
      var index := record.sentParts;
      while index < |parts|
        invariant Valid() && Holds(w, e, record, SendingFrom(parts, index)) && old(sys.now) <= sys.now && Tame(cfg, w, env, start, run)
        invariant record.sentParts <= index && SentUpTo(env, record, index)
        decreases |parts| - index
      {
        ghost var past := run;
        ok, ending := SendPart(w, e, record, parts, index, env, since);
        TameJoin(cfg, w, env, start, past, run);
        if !ok {
          return;
        }
        index := index + 1;
      }
      ghost var past := run;
      ok, ending := CompleteDelivery(w, e, record, parts, index, env, since);
      TameJoin(cfg, w, env, start, past, run);
    }

    /** The claimed part of an attempt: render, send what is left, complete. */
    method Deliver(w: WorkerId, e: EventId, record: Row, env: Env, ghost since: Time) returns (ok: bool, ghost ending: Ending)
      requires Valid() && Buildable(env) && since <= sys.now
      requires Holds(w, e, record, if record.parts == [] then Unrendered else SendingFrom(record.parts, record.sentParts))
      modifies this, store
      ensures Valid() && sys.up && w !in sys.workers && old(sys.now) <= sys.now && Tame(cfg, w, env, old(run), run)
      ensures ok == ending.Finished? && ClaimEnded(cfg, env, e, record, ending, since, sys)
    {
      var parts;
      parts, ok, ending := EnsureRenderedParts(w, e, record, env, since);
      if ok {
        ok, ending := SendParts(w, e, record, parts, env, since, old(run));
      }
    }

    lemma AttemptHandled(e: EventId, r0: seq<Action>, s0: State, r1: seq<Action>, s1: State)
      requires Valid() && Reached(cfg, INIT, r0, s0) && Reached(cfg, INIT, r1, s1)
      requires CalmBetween(cfg, r0, r1) && CalmBetween(cfg, r1, run)
      requires forall t :: e !in DueSet(s1.rows, t)
      ensures forall t :: Handled(cfg, s0, sys, e, t)
    {
      forall t
        ensures Handled(cfg, s0, sys, e, t)
      {
        CalmSuffix(cfg, r0, s0, r1, s1, t);
        CalmSuffix(cfg, r1, s1, run, sys, t);
        HandledThenQuiet(cfg, s0, s1, sys, e, t);
      }
    }

    /**
     One delivery attempt, with other goroutines acting between its statements: `log` tells how its claim
     ended, and the row says so. It leaves no claim behind; a completed one means every part was accepted.
     In a calm environment it takes its event out of the rows due at any time up to the smallest backoff
     from now, and adds none.
     */
    method ProcessEventByID(w: WorkerId, e: EventId, env: Env) returns (r: Attempt, ghost log: AttemptLog)
      requires Valid() && sys.up && w !in sys.workers && Buildable(env)
      modifies this, store
      ensures Valid() && sys.up && w !in sys.workers && old(run) <= run && old(sys.now) <= sys.now
      ensures AttemptRan(cfg, env, e, old(sys), sys, r, log)
      ensures OnlyClaims(w, e, old(run), run) && (env.writes(0) ==> ClaimedSince(run, |old(run)|, w, e))
      ensures Smooth(env) ==> r.Completed? || r.Skipped?
      ensures r.Skipped? ==> !(e in sys.rows && Claimable(sys.rows[e].status))
      ensures r.Errored? && env.writes(0) && env.writes(2) ==>
                e in sys.rows && (sys.rows[e].status.RetryScheduled? || sys.rows[e].status.Failed? || sys.rows[e].status.DeadLetter?)
      ensures r.Completed? ==> e in sys.rows && e in sys.hist && sys.rows[e].status.Delivered?
                               && forall i: nat :: i < |sys.rows[e].parts| ==> i in Indices(Log(sys, e))
      ensures CalmEnv(cfg, env) && env.writes(0) ==> forall t :: Handled(cfg, old(sys), sys, e, t)
    {
      var at := sys.now;
      var claim := ClaimEvent(w, e, at, env);
      ghost var past, claimed := run, sys;
      log := AttemptLog(NewRow(0, 0), Finished);
      if claim.Claimed? {
        var ok;
        ghost var ending;
        ok, ending := Deliver(w, e, claim.row, env, at);
        r, log := if ok then Completed else Errored, AttemptLog(claim.row, ending);
        ClaimedStays(past, run, |old(run)|, |old(run)|, w, e);
        OnlyClaimsThenTame(cfg, w, e, env, old(run), past, run);
      } else {
        r := if claim.ClaimError? then Errored else Skipped;
      }
      if CalmEnv(cfg, env) && env.writes(0) {
        AttemptHandled(e, old(run), old(sys), past, claimed);
      }
      if r.Completed? {
        ReachedInv(cfg, run, sys);
        AtLeastOnceInOrder(cfg, sys, e);
      }
    }

    lemma NextAttempt(w: WorkerId, ids: seq<EventId>, pass: PassEnv, past: seq<Action>, before: State, r: Attempt, log: AttemptLog, trail: Trail)
      returns (trail': Trail)
      requires Valid() && Reached(cfg, INIT, past, before) && past <= run && AttemptsRan(cfg, w, ids, pass, past, trail)
      requires |trail.logs| < |ids| && trail.marks[|trail.logs|] == |past| && !pass.cancelled(|trail.logs|)
      requires var k := |trail.logs|;
               && AttemptRan(cfg, pass.attempts(k), ids[k], before, sys, r, log) && OnlyClaims(w, ids[k], past, run)
               && (pass.attempts(k).writes(0) ==> ClaimedSince(run, |past|, w, ids[k]))
      ensures AttemptsRan(cfg, w, ids, pass, run, trail') && trail' == Trail(trail.marks + [|run|], trail.logs + [(r, log)])
    {
      var k := |trail.logs|;
      trail' := Trail(trail.marks + [|run|], trail.logs + [(r, log)]);
      assert run[..|past|] == past && run[..|run|] == run;
      forall i: nat | i < |trail'.logs|
        ensures AttemptAt(cfg, w, ids[i], pass.attempts(i), run, trail', i)
      {
        if i < k {
          assert AttemptAt(cfg, w, ids[i], pass.attempts(i), past, trail, i);
          AttemptStays(cfg, w, ids[i], pass.attempts(i), past, run, trail, trail', i);
        }
      }
    }

    /** The next attempt of a pass that began in state `start`. */
    method AttemptNext(w: WorkerId, ids: seq<EventId>, k: nat, pass: PassEnv, ghost t: Time, ghost past: nat, ghost start: State, ghost trail: Trail)
      returns (ghost trail': Trail)
      requires Valid() && sys.up && w !in sys.workers && BuildablePass(pass) && start.now <= sys.now
      requires TrailFits(cfg, w, ids, pass, past, run, trail, k) && k < |ids| && !pass.cancelled(k)
      requires CalmPass(cfg, pass) ==> AllHandled(cfg, start, sys, Ids(ids[..k]), t)
      modifies this, store
      ensures Valid() && sys.up && w !in sys.workers && old(run) <= run && old(sys.now) <= sys.now
      ensures TrailFits(cfg, w, ids, pass, past, run, trail', k + 1)
      ensures CalmPass(cfg, pass) ==> AllHandled(cfg, start, sys, Ids(ids[..k + 1]), t)
    {
      var r;
      ghost var log;
      r, log := ProcessEventByID(w, ids[k], pass.attempts(k));
      trail' := NextAttempt(w, ids, pass, old(run), old(sys), r, log, trail);
      if CalmPass(cfg, pass) {
        IdsNext(ids, k);
        HandledNext(cfg, start, old(sys), sys, Ids(ids[..k]), ids[k], t);
      }
    }

    /** The attempts of a pass, one after the other, until the context is cancelled; `trail` tells of each. */
    method ProcessAll(w: WorkerId, ids: seq<EventId>, pass: PassEnv, ghost t: Time) returns (live: bool, ghost trail: Trail)
      requires Valid() && sys.up && w !in sys.workers && BuildablePass(pass)
      modifies this, store
      ensures Valid() && sys.up && w !in sys.workers && old(run) <= run && old(sys.now) <= sys.now
      ensures TrailFits(cfg, w, ids, pass, |old(run)|, run, trail, |trail.logs|)
      ensures live <==> |trail.logs| == |ids|
      ensures !live ==> pass.cancelled(|trail.logs|)
      ensures CalmPass(cfg, pass) ==> Quiet(cfg, old(sys), sys, t) && (live ==> AllHandled(cfg, old(sys), sys, Ids(ids), t))
    {
      ghost var start, past := sys, |run|;
      var k := 0;
      trail := Trail([|run|], []);
      assert Ids(ids[..0]) == {};
      while k < |ids| && !pass.cancelled(k)
        invariant 0 <= k <= |ids| && Valid() && sys.up && w !in sys.workers && old(run) <= run && start.now <= sys.now
        invariant TrailFits(cfg, w, ids, pass, past, run, trail, k)
        invariant CalmPass(cfg, pass) ==> AllHandled(cfg, start, sys, Ids(ids[..k]), t)
      {
        trail := AttemptNext(w, ids, k, pass, t, past, start, trail);
        k := k + 1;
      }
      live := k == |ids|;
      assert live ==> ids[..k] == ids;
    }

    /**
     One recovery pass: the oldest due events, up to `batch` of them, attempted one after the other until
     the context is cancelled; `listed` is the state its SELECT saw, `log` tells of the attempts. In a calm
     environment with a live context it takes min(batch, due) events out of those due at the horizon.
     */
    method RecoverPending(w: WorkerId, batch: nat, pass: PassEnv, ghost horizon: Time)
      returns (live: bool, ghost listed: State, ghost log: PassLog)
      requires Valid() && sys.up && w !in sys.workers && BuildablePass(pass)
      modifies this, store
      ensures Valid() && sys.up && w !in sys.workers && old(run) <= run && old(sys.now) <= sys.now
      ensures PassRan(cfg, w, batch, pass, run, log) && log.start == |old(run)| && log.trail.marks[|log.trail.logs|] == |run|
      ensures listed == After(cfg, INIT, run[..log.trail.marks[0]]) && (pass.before == [] ==> listed == old(sys))
      ensures live <==> |log.trail.logs| == |log.ids|
      ensures !live ==> pass.cancelled(|log.trail.logs|)
      ensures CalmPass(cfg, pass) ==> Quiet(cfg, old(sys), sys, horizon)
      ensures CalmPass(cfg, pass) && live ==> PassDrained(cfg, old(sys), sys, log.ids, horizon, batch)
    {
      var now := sys.now;
      Yield(w, pass.before, a => Foreign(w, a));
      listed := sys;
      ghost var past := run;
      var ids := store.ListDueEventIDs(now, batch);
      ghost var trail;
      live, trail := ProcessAll(w, ids, pass, horizon);
      log := PassLog(|old(run)|, ids, trail);
      assert run[..|past|] == past && run[..|old(run)|] == old(run);
      if CalmPass(cfg, pass) {
        PassDrains(cfg, old(run), old(sys), past, listed, sys, ids, horizon, batch);
      }
    }

    /** One recovery tick: the others (the rotation tick among them) until it comes, and a pass. */
    method RecoveryTick(w: WorkerId, batch: nat, wait: seq<Action>, pass: PassEnv, ghost horizon: Time, ghost start: State, ghost n: nat)
      returns (live: bool, ghost last: Time, ghost log: PassLog)
      requires Valid() && sys.up && w !in sys.workers && BuildablePass(pass)
      modifies this, store
      ensures Valid() && sys.up && w !in sys.workers && old(run) <= run && old(sys.now) <= last <= sys.now
      ensures PassRan(cfg, w, batch, pass, run, log) && last == After(cfg, INIT, run[..log.start]).now
      ensures live <==> |log.trail.logs| == |log.ids|
      ensures !live ==> pass.cancelled(|log.trail.logs|)
      ensures live && last <= horizon < start.now + cfg.pause && AllCalm(cfg, wait) && CalmPass(cfg, pass) ==>
                Drained(cfg, start, old(sys), horizon, n) ==> Drained(cfg, start, sys, horizon, n + batch)
    {
      Yield(w, wait, a => Foreign(w, a));
      last := sys.now;
      ghost var middle, past := sys, run;
      ghost var listed;
      live, listed, log := RecoverPending(w, batch, pass, horizon);
      assert run[..|past|] == past;
      if live && last <= horizon < start.now + cfg.pause && AllCalm(cfg, wait) && CalmPass(cfg, pass) && Drained(cfg, start, old(sys), horizon, n) {
        CalmSuffix(cfg, old(run), old(sys), past, middle, horizon);
        DrainedQuiet(cfg, start, old(sys), middle, horizon, n);
        DrainedPass(cfg, start, middle, sys, log.ids, horizon, n, batch);
      }
    }

    /**
     The recovery ticks of Run, each with its pass, until the context is cancelled; `last` is the time of the
     last tick, `logs` tells of the passes. With a horizon as above that no tick goes beyond, n passes leave
     at most due - n * batch events due at the horizon: ceil(due / batch) passes empty the queue.
     */
    method RunRecovery(w: WorkerId, batch: nat, rounds: nat, waits: nat -> seq<Action>, passes: nat -> PassEnv, ghost horizon: Time)
      returns (live: bool, ghost last: Time, ghost logs: seq<PassLog>, ghost taken: nat)
      requires Valid() && sys.up && w !in sys.workers && forall k :: BuildablePass(passes(k))
      modifies this, store
      ensures Valid() && sys.up && w !in sys.workers && old(run) <= run && old(sys.now) <= last <= sys.now
      ensures Recovered(cfg, w, batch, passes, run, rounds, logs, live)
      ensures live ==> taken == rounds * batch
      ensures live && last <= horizon && CalmRecovery(cfg, waits, passes) && Opens(cfg, old(sys), horizon) ==>
                RoundsDrained(old(sys.rows), sys.rows, horizon, taken)
    {
      ghost var start := sys;
      live, last, logs, taken := true, sys.now, [], 0;
      for k := 0 to rounds
        invariant Valid() && sys.up && w !in sys.workers && old(run) <= run && start.now <= last <= sys.now
        invariant live && taken == k * batch && Recovered(cfg, w, batch, passes, run, k, logs, true)
        invariant last <= horizon && CalmRecovery(cfg, waits, passes) && Opens(cfg, start, horizon) ==>
                    Drained(cfg, start, sys, horizon, taken)
      {
        ghost var past := run;
        ghost var log;
        live, last, log := RecoveryTick(w, batch, waits(k), passes(k), horizon, start, taken);
        RecoveredNext(cfg, w, batch, passes, past, run, k, rounds, logs, log);
        logs := logs + [log];
        if !live {
          return;
        }
        NextMultiple(k, batch);
        taken := taken + batch;
      }
    }

    /** Goroutine w holds the rotation mutex, between two rounds, and the cutoffs were sampled. */
    ghost predicate Rotating(w: WorkerId, deliveredBefore: Time, terminalBefore: Time)
      reads this, store
    {
      Valid() && sys.up && sys.selected == {} && CutoffsPassed(cfg, sys.now, deliveredBefore, terminalBefore) && w !in sys.workers
    }

    /** A scheduling point of the rotation job: the others run, but no second rotation does. */
    method YieldRotation(w: WorkerId, acts: seq<Action>, deliveredBefore: Time, terminalBefore: Time, ghost gone: map<EventId, Row>)
      requires Valid() && CutoffsPassed(cfg, sys.now, deliveredBefore, terminalBefore) && Removed(sys, gone)
      modifies this, store
      ensures Valid() && old(run) <= run && sys.up == old(sys.up) && sys.selected == old(sys.selected)
      ensures acts == [] ==> run == old(run)
      ensures old(sys.now) <= sys.now && CutoffsPassed(cfg, sys.now, deliveredBefore, terminalBefore) && Removed(sys, gone)
      ensures OnlyInserts(old(sys), sys) && sys.rows.Keys <= sys.hist.Keys
      ensures SameLeft(old(sys.rows), sys.rows, RotatableSet(old(sys.rows), deliveredBefore, terminalBefore), deliveredBefore, terminalBefore)
      ensures forall e :: e in old(sys.rows) && Terminal(old(sys.rows)[e].status) ==> e in sys.rows && sys.rows[e] == old(sys.rows)[e]
      ensures w in sys.workers <==> w in old(sys.workers)
    {
      ReachedInv(cfg, run, sys);
      var allow := (a: Action) => Foreign(w, a) && Bystander(a);
      var steps := Timely(cfg, allow, sys, acts, deliveredBefore, terminalBefore);
      Play(w, steps);
      BystanderRun(cfg, old(sys), steps, deliveredBefore, terminalBefore);
      RemovedStays(cfg, old(sys), steps, gone);
      RunKeeps(cfg, old(sys), steps);
    }

    /** The SELECT of a round, and the others running before its DELETE: the candidates stay final and as they are. */
    method SelectRound(w: WorkerId, ids: set<EventId>, deliveredBefore: Time, terminalBefore: Time, acts: seq<Action>,
                       ghost gone: map<EventId, Row>)
      requires Rotating(w, deliveredBefore, terminalBefore)
      requires ids <= RotatableSet(sys.rows, deliveredBefore, terminalBefore) && Removed(sys, gone)
      modifies this, store
      ensures Valid() && sys.up && sys.selected == ids && old(run) <= run && w !in sys.workers
      ensures CutoffsPassed(cfg, sys.now, deliveredBefore, terminalBefore) && Removed(sys, gone)
      ensures ids <= sys.rows.Keys <= sys.hist.Keys && Picked(sys.rows, ids) == Picked(old(sys.rows), ids)
      ensures OnlyInserts(old(sys), sys)
      ensures SameLeft(old(sys.rows), sys.rows, RotatableSet(old(sys.rows), deliveredBefore, terminalBefore), deliveredBefore, terminalBefore)
      ensures acts == [] ==> Rotates(old(run), run)
    {
      Book(Select(deliveredBefore, terminalBefore, ids));
      assert sys.selected == ids && sys.rows == old(sys.rows) && sys.hist == old(sys.hist);
      YieldRotation(w, acts, deliveredBefore, terminalBefore, gone);
      assert forall e :: e in ids ==> e in old(sys.rows) && Terminal(old(sys.rows)[e].status);
      PickedSame(old(sys.rows), sys.rows, ids);
    }

    /** The DELETE of a round; when it fails, the round gives up. */
    method DeleteRound(candidates: seq<EventId>, deliveredBefore: Time, terminalBefore: Time, io: nat -> bool,
                       ghost gone: map<EventId, Row>) returns (ok: bool)
      requires Valid() && sys.up && sys.selected == Ids(candidates) <= sys.rows.Keys <= sys.hist.Keys && Removed(sys, gone)
      modifies this, store
      ensures Valid() && sys.up && sys.selected == {} && old(run) <= run && sys.now == old(sys.now) && sys.workers == old(sys.workers)
      ensures sys.hist.Keys == old(sys.hist).Keys && sys.rows.Keys <= old(sys.rows).Keys
      ensures ok ==>
                && sys.rows.Keys == old(sys.rows).Keys - Ids(candidates)
                && Removed(sys, gone + Picked(old(sys.rows), Ids(candidates)))
                && SameLeft(old(sys.rows), sys.rows, RotatableSet(old(sys.rows), deliveredBefore, terminalBefore) - Ids(candidates),
                            deliveredBefore, terminalBefore)
      ensures (forall j :: io(j)) ==> ok
      ensures Rotates(old(run), run)
    {
      var deleted: nat;
      ok, deleted := store.DeleteByEventIDs(candidates, io);
      IdsPrefix(candidates, deleted);
      DeleteRemoves(cfg, sys, Ids(candidates[..deleted]), gone, deliveredBefore, terminalBefore);
      Book(Delete(Ids(candidates[..deleted])));
      if ok {
        assert candidates[..deleted] == candidates;
      } else {
        Book(Drop);
      }
    }

    /** One round: the candidates of a SELECT are deleted, with the others running before and after the DELETE. */
    method RotateRound(w: WorkerId, candidates: seq<EventId>, deliveredBefore: Time, terminalBefore: Time,
                       env: RotationEnv, k: nat, ghost gone: map<EventId, Row>, ghost start: State) returns (ok: bool)
      requires Rotating(w, deliveredBefore, terminalBefore)
      requires Ids(candidates) <= RotatableSet(sys.rows, deliveredBefore, terminalBefore) && Removed(sys, gone)
      requires Accounts(start, sys, gone)
      modifies this, store
      ensures Rotating(w, deliveredBefore, terminalBefore) && old(run) <= run
      ensures ok ==>
                && Removed(sys, gone + Picked(old(sys.rows), Ids(candidates)))
                && Accounts(start, sys, gone + Picked(old(sys.rows), Ids(candidates)))
                && SameLeft(old(sys.rows), sys.rows, RotatableSet(old(sys.rows), deliveredBefore, terminalBefore) - Ids(candidates),
                            deliveredBefore, terminalBefore)
      ensures SmoothRotation(env) ==> ok
      ensures LonelyRotation(env) ==> Rotates(old(run), run)
    {
      SelectRound(w, Ids(candidates), deliveredBefore, terminalBefore, env.others(2 * k), gone);
      ghost var r1 := run;
      AccountsInsert(start, old(sys), sys, gone);
      ghost var selected := sys;
      ok := DeleteRound(candidates, deliveredBefore, terminalBefore, env.deletes(k), gone);
      if LonelyRotation(env) {
        RotatesJoin(old(run), r1, run);
      }
      if ok {
        ghost var gone' := gone + Picked(old(sys.rows), Ids(candidates));
        AccountsDelete(start, selected, sys, gone, Ids(candidates));
        ghost var deleted := sys;
        YieldRotation(w, env.others(2 * k + 1), deliveredBefore, terminalBefore, gone');
        AccountsInsert(start, deleted, sys, gone');
        ghost var left := RotatableSet(old(sys.rows), deliveredBefore, terminalBefore);
        SameLeftJoin(old(sys.rows), selected.rows, deleted.rows, left, left - Ids(candidates), deliveredBefore, terminalBefore);
        SameLeftJoin(old(sys.rows), deleted.rows, sys.rows, left - Ids(candidates), left - Ids(candidates), deliveredBefore, terminalBefore);
      }
    }

    method CountRotatable(candidates: seq<EventId>, deliveredBefore: Time, terminalBefore: Time, tally: Tally, ghost gone: map<EventId, Row>)
      returns (tally': Tally)
      requires Valid() && Tallies(gone, tally) && Removed(sys, gone)
      requires Lowest(candidates, RotatableSet(sys.rows, deliveredBefore, terminalBefore), UpdatedAt(sys.rows), 100)
      ensures Tallies(gone + Picked(sys.rows, Ids(candidates)), tally')
    {
      assert forall i :: 0 <= i < |candidates| ==> candidates[i] in RotatableSet(sys.rows, deliveredBefore, terminalBefore);
      tally' := CountCandidates(store.rows, candidates, tally, gone);
    }

    /** Counts the candidates of a round by their state and deletes them. */
    method CountAndDelete(w: WorkerId, candidates: seq<EventId>, deliveredBefore: Time, terminalBefore: Time, env: RotationEnv, k: nat,
                          tally: Tally, ghost gone: map<EventId, Row>, ghost start: State)
      returns (ok: bool, tally': Tally, ghost gone': map<EventId, Row>)
      requires Rotating(w, deliveredBefore, terminalBefore)
      requires RotationFits(start, sys, deliveredBefore, terminalBefore, tally, gone, k) && candidates != []
      requires Lowest(candidates, RotatableSet(sys.rows, deliveredBefore, terminalBefore), UpdatedAt(sys.rows), 100)
      modifies this, store
      ensures Rotating(w, deliveredBefore, terminalBefore) && old(run) <= run
      ensures ok ==>
                && RotationFits(start, sys, deliveredBefore, terminalBefore, tally', gone', k + 1)
                && |RotatableSet(sys.rows, deliveredBefore, terminalBefore)| < |RotatableSet(old(sys.rows), deliveredBefore, terminalBefore)|
      ensures SmoothRotation(env) ==> ok
      ensures LonelyRotation(env) ==> Rotates(old(run), run)
    {
      tally' := CountRotatable(candidates, deliveredBefore, terminalBefore, tally, gone);
      gone' := gone + Picked(sys.rows, Ids(candidates));
      PickedKeys(sys.rows, gone, candidates, RotatableSet(sys.rows, deliveredBefore, terminalBefore));
      ok := RotateRound(w, candidates, deliveredBefore, terminalBefore, env, k, gone, start);
      if ok {
        RotationGoesOn(start, old(sys), sys, deliveredBefore, terminalBefore, tally, tally', gone, candidates, k);
        FewerLeft(old(sys.rows), sys.rows, candidates, deliveredBefore, terminalBefore);
      }
    }

    /** The body of the rotation loop. */
    method RoundOfLoop(w: WorkerId, deliveredBefore: Time, terminalBefore: Time, env: RotationEnv, k: nat, tally: Tally,
                       ghost gone: map<EventId, Row>, ghost start: State, ghost begun: seq<Action>)
      returns (step: RoundStep, tally': Tally, ghost gone': map<EventId, Row>)
      requires Rotating(w, deliveredBefore, terminalBefore)
      requires RotationFits(start, sys, deliveredBefore, terminalBefore, tally, gone, k)
      requires begun <= run && (LonelyRotation(env) ==> Rotates(begun, run))
      modifies this, store
      ensures Rotating(w, deliveredBefore, terminalBefore) && old(run) <= run
      ensures step.Nothing? ==> RotationFits(start, sys, deliveredBefore, terminalBefore, tally', gone', k)
      ensures step.Nothing? ==> RotatableSet(sys.rows, deliveredBefore, terminalBefore) == {}
      ensures step.Removal? ==> RotationFits(start, sys, deliveredBefore, terminalBefore, tally', gone', k + 1) && env.sizes(k + 1) == Some(step.size)
      ensures step.Removal? ==>
                |RotatableSet(sys.rows, deliveredBefore, terminalBefore)| < |RotatableSet(old(sys.rows), deliveredBefore, terminalBefore)|
      ensures SmoothRotation(env) ==> !step.RoundError?
      ensures env.cancelled(k) || !env.selects(k) ==> step.RoundError? && run == old(run)
      ensures LonelyRotation(env) ==> Rotates(begun, run)
    {
      tally', gone', step := tally, gone, RoundError;
      if !env.cancelled(k) && env.selects(k) {
        var candidates := store.SelectRotatable(deliveredBefore, terminalBefore, 100);
        if |candidates| == 0 {
          NothingListed(sys.rows, candidates, deliveredBefore, terminalBefore);
          step := Nothing;
        } else {
          var ok;
          ok, tally', gone' := CountAndDelete(w, candidates, deliveredBefore, terminalBefore, env, k, tally, gone, start);
          if LonelyRotation(env) {
            RotatesJoin(begun, old(run), run);
          }
          if ok && env.sizes(k + 1).Some? {
            step := Removal(env.sizes(k + 1).value);
          }
        }
      }
    }

    /** The rotation loop: rounds until the store is small enough or nothing is rotatable under the fixed cutoffs. */
    method RunRounds(w: WorkerId, deliveredBefore: Time, terminalBefore: Time, start: int, low: int, env: RotationEnv)
      returns (r: RotationResult, tally: Tally, ghost gone: map<EventId, Row>, ghost rounds: nat)
      requires env.sizes(0) == Some(start)
      requires Rotating(w, deliveredBefore, terminalBefore)
      modifies this, store
      ensures Rotating(w, deliveredBefore, terminalBefore) && old(run) <= run && !r.RotationSkipped?
      ensures r.RotationDone? ==> RotationFits(old(sys), sys, deliveredBefore, terminalBefore, tally, gone, rounds)
      ensures r.RotationDone? ==> Shrunk(env, low, rounds, r.size)
      ensures r.RotationDone? && r.size > low ==>
                RotatableSet(sys.rows, deliveredBefore, terminalBefore) == {} && !env.cancelled(rounds) && env.selects(rounds)
      ensures SmoothRotation(env) ==> r.RotationDone?
      ensures LonelyRotation(env) ==> Rotates(old(run), run)
    {
      tally, gone, rounds := Tally(0, 0, 0), map[], 0;
      var size, k, step := start, 0, Removal(start);
      ghost var begun, first := run, sys;
      RotationStarts(sys, deliveredBefore, terminalBefore);
      while step.Removal? && size > low
        invariant Rotating(w, deliveredBefore, terminalBefore) && begun <= run && (LonelyRotation(env) ==> Rotates(begun, run))
        invariant !step.RoundError? ==> RotationFits(first, sys, deliveredBefore, terminalBefore, tally, gone, k) && Shrunk(env, low, k, size)
        invariant step.Nothing? ==>
                    RotatableSet(sys.rows, deliveredBefore, terminalBefore) == {} && !env.cancelled(k) && env.selects(k)
        invariant SmoothRotation(env) ==> !step.RoundError?
        decreases step.Removal?, |RotatableSet(sys.rows, deliveredBefore, terminalBefore)|
      {
        step, tally, gone := RoundOfLoop(w, deliveredBefore, terminalBefore, env, k, tally, gone, first, begun);
        if step.Removal? {
          ShrunkNext(env, low, k, size, step.size);
          size, k := step.size, k + 1;
        }
      }
      rounds, r := k, if step.RoundError? then RotationError else RotationDone(size);
    }

    /** The loop, and what it removed in all. */
    method RotateRounds(w: WorkerId, deliveredBefore: Time, terminalBefore: Time, start: int, low: int, env: RotationEnv)
      returns (r: RotationResult, tally: Tally, ghost gone: map<EventId, Row>, ghost rounds: nat)
      requires env.sizes(0) == Some(start)
      requires Rotating(w, deliveredBefore, terminalBefore)
      modifies this, store
      ensures Rotating(w, deliveredBefore, terminalBefore) && old(run) <= run && !r.RotationSkipped?
      ensures r.RotationDone? ==> RotationFits(old(sys), sys, deliveredBefore, terminalBefore, tally, gone, rounds)
      ensures r.RotationDone? ==> Shrunk(env, low, rounds, r.size)
      ensures r.RotationDone? ==>
                var rotatable := |RotatableSet(old(sys.rows), deliveredBefore, terminalBefore)|;
                |gone.Keys| == if rotatable < 100 * rounds then rotatable else 100 * rounds
      ensures r.RotationDone? && r.size > low ==>
                RotatableSet(sys.rows, deliveredBefore, terminalBefore) == {} && !env.cancelled(rounds) && env.selects(rounds)
      ensures r.RotationDone? ==> gone.Keys == old(sys.rows).Keys - sys.rows.Keys
      ensures r.RotationDone? && r.size > low ==> gone.Keys == RotatableSet(old(sys.rows), deliveredBefore, terminalBefore)
      ensures SmoothRotation(env) ==> r.RotationDone?
      ensures LonelyRotation(env) ==> Rotates(old(run), run)
    {
      ReachedInv(cfg, run, sys);
      r, tally, gone, rounds := RunRounds(w, deliveredBefore, terminalBefore, start, low, env);
      if r.RotationDone? {
        RotationEnds(old(sys), sys, deliveredBefore, terminalBefore, tally, gone, rounds);
      }
    }

    /** The two cutoffs, sampled one after the other; the others run in between and before the first SELECT. */
    method SampleCutoffs(w: WorkerId, env: RotationEnv) returns (deliveredBefore: Time, terminalBefore: Time)
      requires Valid() && sys.up && sys.selected == {} && w !in sys.workers
      modifies this, store
      ensures Valid() && sys.up && sys.selected == {} && old(run) <= run && w !in sys.workers
      ensures deliveredBefore == old(sys.now) - cfg.retentionDelivered && old(sys.now) - cfg.retentionDeadLetter <= terminalBefore
      ensures CutoffsPassed(cfg, sys.now, deliveredBefore, terminalBefore)
      ensures OnlyInserts(old(sys), sys) && old(sys.rows).Keys <= old(sys.hist).Keys && sys.rows.Keys <= sys.hist.Keys
      ensures LonelyRotation(env) ==> Rotates(old(run), run)
    {
      ReachedInv(cfg, run, sys);
      deliveredBefore := sys.now - cfg.retentionDelivered;
      YieldRotation(w, env.sampling, deliveredBefore, sys.now - cfg.retentionDeadLetter, map[]);
      ghost var sampled := sys;
      terminalBefore := sys.now - cfg.retentionDeadLetter;
      YieldRotation(w, env.before, deliveredBefore, terminalBefore, map[]);
      OnlyInsertsJoin(old(sys), sampled, sys);
    }

    /**
     Purges final records past their retention until the store is small enough or none is left. It
     terminates although the others keep running. The two cutoffs are sampled one after the other
     before the first SELECT.
     */
    method RotateStore(w: WorkerId, enabled: bool, high: int, low: int, env: RotationEnv)
      returns (r: RotationResult, tally: Tally, ghost log: RotationLog)
      requires Valid() && sys.up && sys.selected == {} && w !in sys.workers
      modifies this, store
      ensures Valid() && sys.up && sys.selected == {} && old(run) <= run && w !in sys.workers
      ensures r.RotationSkipped? <==> env.sizes(0).Some? && !(enabled && env.sizes(0).value >= high)
      ensures r.RotationSkipped? ==> sys == old(sys)
      ensures env.last.None? ==> !r.RotationDone?
      ensures SmoothRotation(env) ==> !r.RotationError?
      ensures r.RotationDone? ==> RotationRan(cfg, old(sys), sys, low, env, r.size, tally, log)
      ensures LonelyRotation(env) ==> Rotates(old(run), run)
    {
      tally, log := Tally(0, 0, 0), RotationLog(0, 0, 0, map[]);
      if env.sizes(0).None? {
        r := RotationError;
        return;
      }
      var size := env.sizes(0).value;
      if !enabled || size < high {
        r := RotationSkipped;
        return;
      }
      var deliveredBefore, terminalBefore := SampleCutoffs(w, env);
      ghost var start, past, gone, rounds := sys, run, map[], 0;
      r, tally, gone, rounds := RotateRounds(w, deliveredBefore, terminalBefore, size, low, env);
      log := RotationLog(deliveredBefore, terminalBefore, rounds, gone);
      if LonelyRotation(env) {
        RotatesJoin(old(run), past, run);
      }
      if r.RotationDone? {
        ReachedInv(cfg, run, sys);
        RotationClears(start, sys, tally, log);
        RotationReports(cfg, old(sys), start, sys, low, env, r.size, tally, log);
        if env.last.None? {
          r := RotationError;
        }
      }
    }

    /** Waits for the rotation mutex: whoever holds it ends its round, by its DELETE or by giving up. */
    method AwaitRotation(w: WorkerId, acts: seq<Action>, deletes: bool)
      requires Valid() && sys.up && w !in sys.workers
      modifies this, store
      ensures Valid() && sys.up && w !in sys.workers && old(run) <= run && sys.selected == {}
      ensures acts == [] ==> Rotates(old(run), run)
    {
      Yield(w, acts, a => Foreign(w, a));
      if sys.selected != {} {
        var last := if deletes then Delete(sys.selected) else Drop;
        store.rows := Step(cfg, sys, last).rows;
        ghost var past := run;
        Book(last);
        if acts == [] {
          RotatesNext(old(run), past, last);
        }
      }
    }

    /**
     Before a webhook is accepted: below the high watermark nothing happens; otherwise rotation runs
     when it is enabled, from the moment (`start`) it gets the mutex, and the webhook is refused only
     when that fails or the store is still above its hard limit.
     */
    method EnsureCapacity(w: WorkerId, limits: Limits, env: CapacityEnv)
      returns (ok: bool, ghost start: State, ghost r: RotationResult, ghost tally: Tally, ghost log: RotationLog)
      requires Valid() && sys.up && w !in sys.workers
      modifies this, store
      ensures Valid() && sys.up && w !in sys.workers && old(run) <= run
      ensures env.first.Some? && env.first.value < limits.high ==> ok && sys == old(sys)
      ensures ok ==> env.first.Some? && (env.first.value < limits.high || (env.second.Some? && env.second.value <= limits.max))
      ensures SmoothRotation(env.rotation) && env.first.Some? && env.second.Some? && env.second.value <= limits.max ==> ok
      ensures ok && env.first.value >= limits.high && limits.enabled ==>
                if r.RotationSkipped? then env.rotation.sizes(0).Some? && env.rotation.sizes(0).value < limits.high && sys == start
                else r.RotationDone? && RotationRan(cfg, start, sys, limits.low, env.rotation, r.size, tally, log)
      ensures forall e :: e in old(sys.rows) ==> e in sys.hist && (e in sys.rows || OutlivedBy(cfg, sys, e, sys.now))
      ensures env.waiting == [] && LonelyRotation(env.rotation) ==> Rotates(old(run), run)
    {
      start, r, tally, log := sys, RotationSkipped, Tally(0, 0, 0), RotationLog(0, 0, 0, map[]);
      ReachedInv(cfg, run, sys);
      ok := false;
      if env.first.None? {
        return;
      }
      if env.first.value < limits.high {
        ok := true;
        return;
      }
      if limits.enabled {
        AwaitRotation(w, env.waiting, env.deletes);
        start := sys;
        ghost var past := run;
        var result, counts;
        result, counts, log := RotateStore(w, limits.enabled, limits.high, limits.low, env.rotation);
        if env.waiting == [] && LonelyRotation(env.rotation) {
          RotatesJoin(old(run), past, run);
        }
        r, tally := result, counts;
        LeftFinal(cfg, old(run), old(sys), run, sys);
        if result.RotationError? {
          return;
        }
      }
      if env.second.Some? {
        ok := env.second.value <= limits.max;
      }
    }
  }

}
