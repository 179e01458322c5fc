/**
 Why recovery passes at different instants need not drain the queue (internal/service/delivery_service.go:138-156,
 internal/store/sqlite.go:441-478): an older row whose retry falls due in between takes the place of a newer one.
 */
module Recovery {
  import opened Options
  import opened Deliveries
  import opened Storage
  import opened Outbox
  import opened OutboxInvariant
  import opened OutboxTheorems

  function Older(): Row { QueuedRow(NewRow(1, 0), 0, 0) }

  function Newer(): Row { QueuedRow(NewRow(2, 1), 1, 1) }

  /** Event 1, created at 0, and event 2, created at 1, both queued and due at time 1. */
  function BothDue(): State {
    State(true, 1, map[1 := Older(), 2 := Newer()], map[], {}, map[1 := FreshHistory(1, 0), 2 := FreshHistory(2, 1)], map[])
  }

  function Rendered(): Row { RenderedRow(ClaimedRow(Older(), 1), ["text"], 1) }

  /** The older one after a first pass at time 1, whose send failed: its retry is due at time 3. */
  function Retried(): Row { RetryRow(Rendered(), 3, 1) }

  function OneDue(): State {
    State(true, 0, map[1 := Older()], map[], {}, map[1 := FreshHistory(1, 0)], map[])
  }

  const ARRIVE: seq<Action> := [Restart, Create(0, 1, 1, 0), MarkQueued(0, true)]

  lemma ArriveTrace()
    ensures After(TRIAL, INIT, ARRIVE) == OneDue() && Disciplined(TRIAL, INIT, ARRIVE)
  {
  }

  const ARRIVE_LATER: seq<Action> := [Tick(1), Create(0, 2, 2, 1), MarkQueued(0, true)]

  lemma ArriveLaterTrace()
    ensures After(TRIAL, OneDue(), ARRIVE_LATER) == BothDue() && Disciplined(TRIAL, OneDue(), ARRIVE_LATER)
  {
  }

  function OlderClaimed(): State {
    BothDue().(rows := map[1 := Rendered(), 2 := Newer()], holders := map[1 := 5],
               workers := map[5 := Owning(Owner(1, ClaimedRow(Older(), 1), SendingFrom(["text"], 0)))],
               hist := map[1 := FreshHistory(1, 0).(claims := 1), 2 := FreshHistory(2, 1)])
  }

  const CLAIM: seq<Action> := [Claim(5, 1, 1), Act(5, SaveParts(["text"], true, 0))]

  lemma ClaimTrace()
    ensures After(TRIAL, BothDue(), CLAIM) == OlderClaimed() && Disciplined(TRIAL, BothDue(), CLAIM)
  {
  }

  const FAIL_AND_WAIT: seq<Action> := [Act(5, Send(Err(false, Network, 2))), Act(5, Close(1, true)), Tick(2)]

  lemma FailAndWaitTrace()
    ensures var s := After(TRIAL, OlderClaimed(), FAIL_AND_WAIT);
            s.rows == map[1 := Retried(), 2 := Newer()] && s.now == 3
    ensures Disciplined(TRIAL, OlderClaimed(), FAIL_AND_WAIT)
  {
  }

  /** A listing of one row, at this instant, does not take the newer event although it is due. */
  ghost predicate PassedOver(s: State, at: Time) {
    && 1 in DueSet(s.rows, at) && 2 in DueSet(s.rows, at)
    && forall ids :: Lowest(ids, DueSet(s.rows, at), CreatedAt(s.rows), 1) ==> 2 !in ids
  }

  lemma OlderGoesFirst(s: State, at: Time)
    requires s.rows.Keys == {1, 2} && Due(s.rows[1], at) && Due(s.rows[2], at) && s.rows[1].createdAt < s.rows[2].createdAt
    ensures PassedOver(s, at)
  {
    var due, rank := DueSet(s.rows, at), CreatedAt(s.rows);
    forall ids | Lowest(ids, due, rank, 1)
      ensures 2 !in ids
    {
      ListedIff(ids, due, rank, 1, 2);
      SubsetCount({1}, Before(due, rank, 2));
    }
  }

  const BEFORE_FIRST: seq<Action> := ARRIVE + ARRIVE_LATER
  const BEFORE_SECOND: seq<Action> := CLAIM + FAIL_AND_WAIT

  lemma BeforeFirst()
    ensures Disciplined(TRIAL, INIT, BEFORE_FIRST) && After(TRIAL, INIT, BEFORE_FIRST) == BothDue()
  {
    ArriveTrace();
    ArriveLaterTrace();
    AfterConcat(TRIAL, INIT, ARRIVE, ARRIVE_LATER);
  }

  lemma BeforeSecond()
    ensures Disciplined(TRIAL, BothDue(), BEFORE_SECOND)
    ensures After(TRIAL, BothDue(), BEFORE_SECOND) == After(TRIAL, OlderClaimed(), FAIL_AND_WAIT)
  {
    ClaimTrace();
    FailAndWaitTrace();
    AfterConcat(TRIAL, BothDue(), CLAIM, FAIL_AND_WAIT);
  }

  /**
   Two events due, batch 1, two passes: the first lists at time 1 and its send fails; the second lists at
   time 3, the very instant the smallest backoff is over, and again takes the older event. The newer one,
   due since time 1, is passed over both times, so the horizon of the drain theorem cannot be moved.
   */
  lemma TwoPassesMissOne()
    ensures var s1 := After(TRIAL, INIT, BEFORE_FIRST);
            var s2 := After(TRIAL, s1, BEFORE_SECOND);
            && Disciplined(TRIAL, INIT, BEFORE_FIRST) && Disciplined(TRIAL, s1, BEFORE_SECOND)
            && DueSet(s1.rows, s1.now) == {1, 2} && s2.now == s1.now + TRIAL.pause
            && PassedOver(s1, s1.now) && PassedOver(s2, s2.now) && 2 in DueSet(s2.rows, s1.now)
  {
    BeforeFirst();
    BeforeSecond();
    FailAndWaitTrace();
    OlderGoesFirst(BothDue(), 1);
    OlderGoesFirst(After(TRIAL, OlderClaimed(), FAIL_AND_WAIT), 3);
  }
}
