/** What the outbox guarantees in every disciplined run, and what goes wrong without the discipline. */
module OutboxTheorems {
  import opened Options
  import opened Deliveries
  import opened Outbox
  import opened OutboxInvariant

  /** The states of all disciplined runs from the empty table. */
  ghost predicate Reachable(cfg: Config, s: State) {
    exists acts :: Disciplined(cfg, INIT, acts) && s == After(cfg, INIT, acts)
  }

  lemma ReachableInv(cfg: Config, s: State)
    requires ValidConfig(cfg) && Reachable(cfg, s)
    ensures Inv(cfg, s)
  {
    var acts :| Disciplined(cfg, INIT, acts) && s == After(cfg, INIT, acts);
    InitInv(cfg);
    RunKeeps(cfg, INIT, acts);
  }

  lemma {:induction false} AfterConcat(cfg: Config, s: State, xs: seq<Action>, ys: seq<Action>)
    ensures After(cfg, s, xs + ys) == After(cfg, After(cfg, s, xs), ys)
    ensures Disciplined(cfg, s, xs + ys) <==> Disciplined(cfg, s, xs) && Disciplined(cfg, After(cfg, s, xs), ys)
    decreases |xs|
  {
    if xs == [] {
      assert xs + ys == ys;
    } else {
      assert (xs + ys)[1..] == xs[1..] + ys;
      AfterConcat(cfg, Step(cfg, s, xs[0]), xs[1..], ys);
    }
  }

  lemma ReachableOn(cfg: Config, s: State, acts: seq<Action>)
    requires Reachable(cfg, s) && Disciplined(cfg, s, acts)
    ensures Reachable(cfg, After(cfg, s, acts))
  {
    var xs :| Disciplined(cfg, INIT, xs) && s == After(cfg, INIT, xs);
    AfterConcat(cfg, INIT, xs, acts);
  }

  // ---------------------------------------------------------------------------------------------
  // Ownership
  // ---------------------------------------------------------------------------------------------

  /** The row is in `sending`, on the owner's attempt, with the owner's parts and next index. */
  predicate OwnsRow(s: State, o: Owner) {
    && o.ev in s.rows
    && s.rows[o.ev].status.Sending?
    && s.rows[o.ev].attempts == o.snap.attempts
    && (o.phase.SendingFrom? || o.phase.Accepted? ==>
          s.rows[o.ev].parts == o.phase.parts && s.rows[o.ev].sentParts == o.phase.index)
  }

  predicate OwnershipHolds(s: State) {
    && (forall w :: w in s.workers && s.workers[w].Owning? ==> OwnsRow(s, s.workers[w].own))
    && (forall w, w' | w in s.workers && w' in s.workers && s.workers[w].Owning? && s.workers[w'].Owning? ::
          s.workers[w].own.ev == s.workers[w'].own.ev ==> w == w')
  }

  lemma InvOwnership(cfg: Config, s: State)
    requires Inv(cfg, s)
    ensures OwnershipHolds(s)
  {
    forall w | w in s.workers && s.workers[w].Owning?
      ensures OwnsRow(s, s.workers[w].own) && s.holders[s.workers[w].own.ev] == w
    {
      var e := s.workers[w].own.ev;
      assert WorkerFits(s, w) && HolderFits(s, e) && EventFits(cfg, s, e);
    }
  }

  /** Each row has at most one live owner, who sees it as it is. */
  lemma ExclusiveOwnership(cfg: Config, s: State)
    requires ValidConfig(cfg) && Reachable(cfg, s)
    ensures OwnershipHolds(s)
  {
    ReachableInv(cfg, s);
    InvOwnership(cfg, s);
  }

  // ---------------------------------------------------------------------------------------------
  // What Telegram accepted
  // ---------------------------------------------------------------------------------------------

  /** The row of an event, or the last row it had before rotation removed it. */
  function LastRow(s: State, e: EventId): Row
    requires e in s.hist && (e in s.rows || s.hist[e].gone.Some?)
  {
    if e in s.rows then s.rows[e] else s.hist[e].gone.value.row
  }

  function Log(s: State, e: EventId): seq<Message>
    requires e in s.hist
  {
    s.hist[e].accepted
  }

  lemma LastRowFits(cfg: Config, s: State, e: EventId) returns (own: Option<Owner>)
    requires ValidConfig(cfg) && Reachable(cfg, s) && e in s.hist
    ensures e in s.rows || s.hist[e].gone.Some?
    ensures own == if e in s.rows then OwnerOf(s, e) else None
    ensures own.Some? <==> Owned(s, e)
    ensures LocalInv(cfg, Local(LastRow(s, e), s.hist[e], own))
  {
    ReachableInv(cfg, s);
    assert EventFits(cfg, s, e);
    OwnedIffHeld(s, e);
    own := if e in s.rows then OwnerOf(s, e) else None;
  }

  /**
   At least once, in order: the accepted indices never decrease, every recorded part was accepted, and
   a delivered event has had all its parts accepted.
   */
  lemma AtLeastOnceInOrder(cfg: Config, s: State, e: EventId)
    requires ValidConfig(cfg) && Reachable(cfg, s) && e in s.hist
    ensures e in s.rows || s.hist[e].gone.Some?
    ensures NonDecreasing(Indices(Log(s, e)))
    ensures forall i: nat :: i < LastRow(s, e).sentParts ==> i in Indices(Log(s, e))
    ensures LastRow(s, e).status.Delivered? ==>
              LastRow(s, e).parts != [] && forall i: nat :: i < |LastRow(s, e).parts| ==> i in Indices(Log(s, e))
  {
    var own := LastRowFits(cfg, s, e);
    forall i: nat | i < LastRow(s, e).sentParts
      ensures i in Indices(Log(s, e))
    {
      PrefixCount(LastRow(s, e).sentParts, i);
      assert multiset(Indices(Log(s, e)))[i] > 0;
    }
  }

  /** How often part i was accepted: once if recorded, once if in flight, and once per fault charged to it. */
  lemma DuplicatesAreCharged(cfg: Config, s: State, e: EventId, i: nat)
    requires ValidConfig(cfg) && Reachable(cfg, s) && e in s.hist
    ensures e in s.rows || s.hist[e].gone.Some?
    ensures multiset(Indices(Log(s, e)))[i] <= 1 + s.hist[e].charged[i]
    ensures !Owned(s, e) ==>
              multiset(Indices(Log(s, e)))[i] == (if i < LastRow(s, e).sentParts then 1 else 0) + s.hist[e].charged[i]
  {
    var own := LastRowFits(cfg, s, e);
    PrefixCount(LastRow(s, e).sentParts, i);
  }

  /** One rendering: every message Telegram took is the persisted part of that index. */
  lemma OneRendering(cfg: Config, s: State, e: EventId)
    requires ValidConfig(cfg) && Reachable(cfg, s) && e in s.hist
    ensures e in s.rows || s.hist[e].gone.Some?
    ensures LastRow(s, e).parts == [] ==> LastRow(s, e).sentParts == 0 && Log(s, e) == []
    ensures forall m :: m in Log(s, e) ==>
              m.index < |LastRow(s, e).parts| && m.text == LastRow(s, e).parts[m.index]
  {
    var own := LastRowFits(cfg, s, e);
    if LastRow(s, e).parts == [] {
      LogEmpty(LastRow(s, e).sentParts, Log(s, e), s.hist[e].charged + InFlight(own), []);
    }
  }

  /** Over any further run: parts never change once persisted, progress never shrinks, final rows stay as they are. */
  lemma RowsOnlyEvolve(cfg: Config, s: State, acts: seq<Action>, e: EventId)
    requires ValidConfig(cfg) && Reachable(cfg, s) && Disciplined(cfg, s, acts)
    requires e in s.rows && e in After(cfg, s, acts).rows
    ensures Evolves(s.rows[e], After(cfg, s, acts).rows[e])
  {
    ReachableInv(cfg, s);
    RunKeeps(cfg, s, acts);
  }

  // ---------------------------------------------------------------------------------------------
  // The faults of a run, read off its actions
  // ---------------------------------------------------------------------------------------------

  /** The part of event e that the action leaves accepted but unrecorded, if any. */
  function Unrecorded(cfg: Config, s: State, a: Action, e: EventId): multiset<nat> {
    if a.Act? && Enabled(cfg, s, a) && s.workers[a.w].Owning? && s.workers[a.w].own.ev == e then
      var phase := s.workers[a.w].own.phase;
      match a.move
      case Send(Err(true, _, _)) => multiset{phase.index}
      case MarkChunk(false, _) => multiset{phase.index}
      case Vanish => if phase.Accepted? then multiset{phase.index} else multiset{}
      case _ => multiset{}
    else multiset{}
  }

  function UnrecordedAlong(cfg: Config, s: State, acts: seq<Action>, e: EventId): multiset<nat>
    decreases |acts|
  {
    if acts == [] then multiset{}
    else Unrecorded(cfg, s, acts[0], e) + UnrecordedAlong(cfg, Step(cfg, s, acts[0]), acts[1..], e)
  }

  function Charged(s: State, e: EventId): multiset<nat> {
    if e in s.hist then s.hist[e].charged else multiset{}
  }

  lemma ChargedStep(cfg: Config, s: State, a: Action, e: EventId)
    ensures Charged(Step(cfg, s, a), e) == Charged(s, e) + Unrecorded(cfg, s, a, e)
  {
  }

  /** The charges of an event are exactly the lost acknowledgements, failed chunk writes and lost goroutines of the run. */
  lemma {:induction false} ChargesAreTheFaults(cfg: Config, s: State, acts: seq<Action>, e: EventId)
    ensures Charged(After(cfg, s, acts), e) == Charged(s, e) + UnrecordedAlong(cfg, s, acts, e)
    decreases |acts|
  {
    if acts != [] {
      ChargedStep(cfg, s, acts[0], e);
      ChargesAreTheFaults(cfg, Step(cfg, s, acts[0]), acts[1..], e);
    }
  }

  function Upto(n: nat): (r: seq<nat>)
    ensures |r| == n && forall i :: 0 <= i < n ==> r[i] == i
  {
    if n == 0 then [] else Upto(n - 1) + [n - 1]
  }

  lemma PrefixLast(front: seq<nat>, last: nat, n: nat)
    requires NonDecreasing(front + [last]) && multiset(front + [last]) == Prefix(n)
    ensures n > 0 && last == n - 1
  {
    var a := front + [last];
    assert last in multiset(a);
    PrefixCount(n, last);
    PrefixCount(n, n - 1);
    assert n - 1 in multiset(a);
    var k :| 0 <= k < |a| && a[k] == n - 1;
  }

  lemma PrefixFront(front: seq<nat>, n: nat)
    requires multiset(front + [n]) == Prefix(n + 1)
    ensures multiset(front) == Prefix(n)
  {
    assert multiset(front + [n]) == multiset(front) + multiset{n};
    assert multiset(front) == Prefix(n + 1) - multiset{n};
    assert Prefix(n) == Prefix(n + 1) - multiset{n};
  }

  lemma SortedPrefixFront(front: seq<nat>, last: nat, n: nat)
    requires NonDecreasing(front + [last]) && multiset(front + [last]) == Prefix(n)
    ensures n > 0 && last == n - 1 && NonDecreasing(front) && multiset(front) == Prefix(n - 1)
  {
    PrefixLast(front, last, n);
    PrefixFront(front, n - 1);
    assert forall i :: 0 <= i < |front| ==> front[i] == (front + [last])[i];
  }

  lemma EmptyPrefix(n: nat)
    requires Prefix(n) == multiset{}
    ensures n == 0
  {
  }

  lemma {:induction false} SortedPrefix(a: seq<nat>, n: nat)
    requires NonDecreasing(a) && multiset(a) == Prefix(n)
    ensures a == Upto(n)
    decreases |a|
  {
    if a == [] {
      EmptyPrefix(n);
    } else {
      assert a == a[..|a| - 1] + [a[|a| - 1]];
      SortedPrefixFront(a[..|a| - 1], a[|a| - 1], n);
      SortedPrefix(a[..|a| - 1], n - 1);
    }
  }

  lemma PlainLog(parts: seq<string>, sent: nat, log: seq<Message>)
    requires LogFits(parts, sent, log, multiset{}) && sent <= |parts|
    ensures |log| == sent && forall i :: 0 <= i < sent ==> log[i] == Message(i, parts[i])
  {
    assert multiset(Indices(log)) == Prefix(sent);
    SortedPrefix(Indices(log), sent);
    forall i | 0 <= i < sent
      ensures log[i] == Message(i, parts[i])
    {
      assert Indices(log)[i] == i;
    }
  }

  /** Without such faults the log of an event nobody is sending is its recorded prefix, each part once. */
  lemma FaultFreeLogIsPrefix(cfg: Config, acts: seq<Action>, e: EventId)
    requires ValidConfig(cfg) && Disciplined(cfg, INIT, acts)
    requires e in After(cfg, INIT, acts).hist && UnrecordedAlong(cfg, INIT, acts, e) == multiset{}
    requires !Owned(After(cfg, INIT, acts), e)
    ensures var s := After(cfg, INIT, acts);
            && (e in s.rows || s.hist[e].gone.Some?)
            && |Log(s, e)| == LastRow(s, e).sentParts <= |LastRow(s, e).parts|
            && forall i :: 0 <= i < |Log(s, e)| ==> Log(s, e)[i] == Message(i, LastRow(s, e).parts[i])
  {
    var s := After(cfg, INIT, acts);
    ChargesAreTheFaults(cfg, INIT, acts, e);
    var own := LastRowFits(cfg, s, e);
    assert s.hist[e].charged + InFlight(own) == multiset{};
    PlainLog(LastRow(s, e).parts, LastRow(s, e).sentParts, Log(s, e));
  }

  // ---------------------------------------------------------------------------------------------
  // The retry budget
  // ---------------------------------------------------------------------------------------------

  /** Claims of event e that succeed along a run. */
  function ClaimsAlong(cfg: Config, s: State, acts: seq<Action>, e: EventId): nat
    decreases |acts|
  {
    if acts == [] then 0
    else (if acts[0].Claim? && acts[0].e == e && Enabled(cfg, s, acts[0]) then 1 else 0)
         + ClaimsAlong(cfg, Step(cfg, s, acts[0]), acts[1..], e)
  }

  function Claims(s: State, e: EventId): nat {
    if e in s.hist then s.hist[e].claims else 0
  }

  lemma ClaimsStep(cfg: Config, s: State, a: Action, e: EventId)
    ensures Claims(Step(cfg, s, a), e) ==
            Claims(s, e) + if a.Claim? && a.e == e && Enabled(cfg, s, a) then 1 else 0
  {
  }

  lemma {:induction false} ClaimsCount(cfg: Config, s: State, acts: seq<Action>, e: EventId)
    ensures Claims(After(cfg, s, acts), e) == Claims(s, e) + ClaimsAlong(cfg, s, acts, e)
    decreases |acts|
  {
    if acts != [] {
      ClaimsStep(cfg, s, acts[0], e);
      ClaimsCount(cfg, Step(cfg, s, acts[0]), acts[1..], e);
    }
  }

  /** The action ends a claim of e without an answer of Telegram deciding it: abort, failed store write or lost goroutine. */
  function Interrupts(cfg: Config, s: State, a: Action, e: EventId): nat {
    if a.Act? && Enabled(cfg, s, a) && s.workers[a.w].Owning? && s.workers[a.w].own.ev == e then
      match a.move
      case Vanish => 1
      case Close(_, ok) =>
        var goal := s.workers[a.w].own.phase.goal;
        if !ok || goal.AbortRetry? || goal.StoreRetry? then 1 else 0
      case _ => 0
    else 0
  }

  function InterruptsAlong(cfg: Config, s: State, acts: seq<Action>, e: EventId): nat
    decreases |acts|
  {
    if acts == [] then 0
    else Interrupts(cfg, s, acts[0], e) + InterruptsAlong(cfg, Step(cfg, s, acts[0]), acts[1..], e)
  }

  function Interrupted(s: State, e: EventId): nat {
    if e in s.hist then s.hist[e].aborts + s.hist[e].faults else 0
  }

  lemma InterruptedStep(cfg: Config, s: State, a: Action, e: EventId)
    ensures Interrupted(Step(cfg, s, a), e) == Interrupted(s, e) + Interrupts(cfg, s, a, e)
  {
  }

  lemma {:induction false} InterruptedCount(cfg: Config, s: State, acts: seq<Action>, e: EventId)
    ensures Interrupted(After(cfg, s, acts), e) == Interrupted(s, e) + InterruptsAlong(cfg, s, acts, e)
    decreases |acts|
  {
    if acts != [] {
      InterruptedStep(cfg, s, acts[0], e);
      InterruptedCount(cfg, Step(cfg, s, acts[0]), acts[1..], e);
    }
  }

  /** The action ends a claim of e with the retry that a send error asked for. */
  function Reschedules(cfg: Config, s: State, a: Action, e: EventId): nat {
    if && a.Act? && Enabled(cfg, s, a) && s.workers[a.w].Owning? && s.workers[a.w].own.ev == e
       && a.move.Close? && a.move.ok && s.workers[a.w].own.phase.goal.SendRetry?
    then 1 else 0
  }

  function ReschedulesAlong(cfg: Config, s: State, acts: seq<Action>, e: EventId): nat
    decreases |acts|
  {
    if acts == [] then 0
    else Reschedules(cfg, s, acts[0], e) + ReschedulesAlong(cfg, Step(cfg, s, acts[0]), acts[1..], e)
  }

  function Rescheduled(s: State, e: EventId): nat {
    if e in s.hist then s.hist[e].rescheduled else 0
  }

  lemma RescheduledStep(cfg: Config, s: State, a: Action, e: EventId)
    ensures Rescheduled(Step(cfg, s, a), e) == Rescheduled(s, e) + Reschedules(cfg, s, a, e)
  {
  }

  lemma {:induction false} RescheduledCount(cfg: Config, s: State, acts: seq<Action>, e: EventId)
    ensures Rescheduled(After(cfg, s, acts), e) == Rescheduled(s, e) + ReschedulesAlong(cfg, s, acts, e)
    decreases |acts|
  {
    if acts != [] {
      RescheduledStep(cfg, s, acts[0], e);
      RescheduledCount(cfg, Step(cfg, s, acts[0]), acts[1..], e);
    }
  }

  /**
   attempt_count is the number of claims of the run. Each of them was rescheduled after a send error,
   at most maxAttempts - 1 of them, or interrupted, or is live, or was the last.
   */
  lemma RetryBudget(cfg: Config, acts: seq<Action>, e: EventId)
    requires ValidConfig(cfg) && Disciplined(cfg, INIT, acts) && e in After(cfg, INIT, acts).hist
    ensures var s := After(cfg, INIT, acts);
            && (e in s.rows || s.hist[e].gone.Some?)
            && LastRow(s, e).attempts == ClaimsAlong(cfg, INIT, acts, e)
            && ClaimsAlong(cfg, INIT, acts, e) == ReschedulesAlong(cfg, INIT, acts, e) + InterruptsAlong(cfg, INIT, acts, e)
                 + (if Owned(s, e) then 1 else 0) + (if Terminal(LastRow(s, e).status) then 1 else 0)
            && ReschedulesAlong(cfg, INIT, acts, e) <= cfg.maxAttempts - 1
            && LastRow(s, e).attempts <= cfg.maxAttempts + InterruptsAlong(cfg, INIT, acts, e)
            && (LastRow(s, e).attempts >= cfg.maxAttempts + InterruptsAlong(cfg, INIT, acts, e) && !Owned(s, e)
                ==> Terminal(LastRow(s, e).status))
  {
    ClaimsCount(cfg, INIT, acts, e);
    InterruptedCount(cfg, INIT, acts, e);
    RescheduledCount(cfg, INIT, acts, e);
    var own := LastRowFits(cfg, After(cfg, INIT, acts), e);
  }

  // ---------------------------------------------------------------------------------------------
  // Rows stranded in `sending`
  // ---------------------------------------------------------------------------------------------

  /** The row is in `sending` and nobody is sending it. */
  predicate Orphaned(s: State, e: EventId) {
    e in s.rows && s.rows[e].status.Sending? && !Owned(s, e)
  }

  /** The owner of e vanishes, or its closing write fails. */
  predicate Strands(cfg: Config, s: State, a: Action, e: EventId) {
    && a.Act? && Enabled(cfg, s, a) && s.workers[a.w].Owning? && s.workers[a.w].own.ev == e
    && (a.move.Vanish? || (a.move.Close? && !a.move.ok))
  }

  /** A restart, or the MarkQueued of e. */
  predicate Frees(cfg: Config, s: State, a: Action, e: EventId) {
    Enabled(cfg, s, a) && (a.Restart? || (a.MarkQueued? && a.ok && s.workers[a.w].ev == e))
  }

  lemma MoveOrphans(cfg: Config, now: Time, l: Local, m: Move)
    requires LocalInv(cfg, l) && l.own.Some? && CanMove(l.own.value, now, m)
    ensures var l' := MoveEffect(cfg, now, l, m);
            l'.own.None? && l'.row.status.Sending? <==> m.Vanish? || (m.Close? && !m.ok)
  {
  }

  lemma InstallOrphans(s: State, w: WorkerId, ev: EventId, l: Local, e: EventId)
    requires HoldersFit(s) && ev in s.rows && ev in s.hist && ev in s.holders && s.holders[ev] == w
    requires l.own.Some? ==> l.own.value.ev == ev
    ensures Orphaned(Install(s, w, ev, l), e) <==> if e == ev then l.own.None? && l.row.status.Sending? else Orphaned(s, e)
    ensures !Orphaned(s, ev)
  {
    InstallKeepsHolders(s, w, ev, l);
    OwnedIffHeld(s, e);
    OwnedIffHeld(s, ev);
    OwnedIffHeld(Install(s, w, ev, l), e);
  }

  lemma OwnMoveOrphans(cfg: Config, s: State, a: Action, e: EventId)
    requires Inv(cfg, s) && a.Act? && Enabled(cfg, s, a) && s.workers[a.w].Owning?
    ensures Orphaned(Step(cfg, s, a), e) <==> Strands(cfg, s, a, e) || Orphaned(s, e)
  {
    var o := s.workers[a.w].own;
    assert WorkerFits(s, a.w) && EventFits(cfg, s, o.ev);
    var l := View(s, o.ev);
    assert l == Local(s.rows[o.ev], s.hist[o.ev], Some(o));
    MoveOrphans(cfg, s.now, l, a.move);
    MoveKeepsIdentity(cfg, s.now, l, a.move);
    InstallOrphans(s, a.w, o.ev, MoveEffect(cfg, s.now, l, a.move), e);
  }

  lemma OtherStepOrphans(cfg: Config, s: State, a: Action, e: EventId)
    requires Inv(cfg, s) && Enabled(cfg, s, a) && !(a.Act? && s.workers[a.w].Owning?) && !a.Claim?
    requires HoldersFit(Step(cfg, s, a))
    ensures Orphaned(Step(cfg, s, a), e) <==> Orphaned(s, e) && !Frees(cfg, s, a, e)
  {
    OwnedIffHeld(s, e);
    OwnedIffHeld(Step(cfg, s, a), e);
    if a.Delete? && e in a.ids {
      assert SelectedFits(cfg, s, e);
    }
  }

  lemma ClaimOrphans(cfg: Config, s: State, a: Action, e: EventId)
    requires Inv(cfg, s) && Enabled(cfg, s, a) && a.Claim? && HoldersFit(Step(cfg, s, a))
    ensures Orphaned(Step(cfg, s, a), e) <==> Orphaned(s, e)
  {
    OwnedIffHeld(s, e);
    OwnedIffHeld(Step(cfg, s, a), e);
  }

  lemma OrphanStep(cfg: Config, s: State, a: Action, e: EventId)
    requires ValidConfig(cfg) && Inv(cfg, s) && Gate(s, a)
    ensures Orphaned(Step(cfg, s, a), e) <==> Strands(cfg, s, a, e) || (Orphaned(s, e) && !Frees(cfg, s, a, e))
  {
    StepKeeps(cfg, s, a);
    if Enabled(cfg, s, a) {
      if a.Act? && s.workers[a.w].Owning? {
        OwnMoveOrphans(cfg, s, a, e);
      } else if a.Claim? {
        ClaimOrphans(cfg, s, a, e);
      } else {
        OtherStepOrphans(cfg, s, a, e);
      }
    }
  }

  /** After the run: e was stranded, and not freed since. */
  predicate StrandedAlong(cfg: Config, s: State, acts: seq<Action>, e: EventId, stranded: bool)
    decreases |acts|
  {
    if acts == [] then stranded
    else StrandedAlong(cfg, Step(cfg, s, acts[0]), acts[1..], e,
                       Strands(cfg, s, acts[0], e) || (stranded && !Frees(cfg, s, acts[0], e)))
  }

  lemma {:induction false} OrphanRun(cfg: Config, s: State, acts: seq<Action>, e: EventId)
    requires ValidConfig(cfg) && Inv(cfg, s) && Disciplined(cfg, s, acts)
    ensures Orphaned(After(cfg, s, acts), e) <==> StrandedAlong(cfg, s, acts, e, Orphaned(s, e))
    decreases |acts|
  {
    if acts != [] {
      OrphanStep(cfg, s, acts[0], e);
      StepKeeps(cfg, s, acts[0]);
      OrphanRun(cfg, Step(cfg, s, acts[0]), acts[1..], e);
    }
  }

  /**
   A row is in `sending` with nobody sending it if and only if the closing write of its last claim failed
   or the goroutine vanished, and neither a restart nor its MarkQueued came after.
   */
  lemma OrphanedIffStranded(cfg: Config, acts: seq<Action>, e: EventId)
    requires ValidConfig(cfg) && Disciplined(cfg, INIT, acts)
    ensures Orphaned(After(cfg, INIT, acts), e) <==> StrandedAlong(cfg, INIT, acts, e, false)
  {
    InitInv(cfg);
    OrphanRun(cfg, INIT, acts, e);
  }

  // ---------------------------------------------------------------------------------------------
  // Crash and restart
  // ---------------------------------------------------------------------------------------------

  /** What happens to a process that is down: its goroutines are gone, one by one, and time passes. */
  predicate Downtime(a: Action) {
    (a.Act? && a.move.Vanish?) || a.Tick?
  }

  lemma DowntimeStep(cfg: Config, s: State, a: Action)
    requires !s.up && Downtime(a)
    ensures Gate(s, a)
    ensures !Step(cfg, s, a).up && Step(cfg, s, a).rows == s.rows && s.now <= Step(cfg, s, a).now
  {
  }

  lemma {:induction false} DowntimeRun(cfg: Config, s: State, acts: seq<Action>)
    requires !s.up && forall a :: a in acts ==> Downtime(a)
    ensures Disciplined(cfg, s, acts)
    ensures !After(cfg, s, acts).up && After(cfg, s, acts).rows == s.rows && s.now <= After(cfg, s, acts).now
    decreases |acts|
  {
    if acts != [] {
      assert Downtime(acts[0]);
      DowntimeStep(cfg, s, acts[0]);
      DowntimeRun(cfg, Step(cfg, s, acts[0]), acts[1..]);
    }
  }

  lemma VanishLeaves(cfg: Config, s: State, w: WorkerId)
    requires Inv(cfg, s) && w in s.workers
    ensures Step(cfg, s, Act(w, Vanish)).workers == s.workers - {w}
  {
    assert WorkerFits(s, w);
    if s.workers[w].Owning? {
      var e := s.workers[w].own.ev;
      assert HolderFits(s, e);
    }
  }

  /** However a process went down, its goroutines can all be gone, so that it may start again. */
  lemma {:induction false} AllVanish(cfg: Config, s: State) returns (acts: seq<Action>)
    requires ValidConfig(cfg) && Inv(cfg, s) && !s.up
    ensures (forall a :: a in acts ==> Downtime(a)) && After(cfg, s, acts).workers == map[]
    decreases |s.workers|
  {
    if s.workers == map[] {
      acts := [];
    } else {
      var w :| w in s.workers;
      var a := Act(w, Vanish);
      VanishLeaves(cfg, s, w);
      DowntimeStep(cfg, s, a);
      StepKeeps(cfg, s, a);
      assert (s.workers - {w}).Keys == s.workers.Keys - {w};
      var rest := AllVanish(cfg, Step(cfg, s, a));
      acts := [a] + rest;
    }
  }

  /** The run of a crash at state s: what happens while the process is down, and the restart. */
  function CrashRun(downtime: seq<Action>): seq<Action> {
    [Crash] + downtime + [Restart]
  }

  lemma CrashRunSteps(cfg: Config, s: State, downtime: seq<Action>)
    requires forall a :: a in downtime ==> Downtime(a)
    requires s.up
    ensures var down := After(cfg, Step(cfg, s, Crash), downtime);
            && After(cfg, s, CrashRun(downtime)) == Step(cfg, down, Restart) && Disciplined(cfg, s, CrashRun(downtime))
            && !down.up && down.rows == s.rows && s.now <= down.now
  {
    var s1 := Step(cfg, s, Crash);
    var down := After(cfg, s1, downtime);
    AfterConcat(cfg, s, [Crash], downtime);
    AfterConcat(cfg, s, [Crash] + downtime, [Restart]);
    assert After(cfg, s, [Crash]) == After(cfg, s1, []) && After(cfg, down, [Restart]) == After(cfg, Step(cfg, down, Restart), []);
    DowntimeRun(cfg, s1, downtime);
  }

  /**
   A crash at any reachable state, wherever its goroutines are, strands nothing: after the restart the
   state is reachable again, what was in `sending` is due at once with its parts and its progress, and
   every other row is as it was.
   */
  lemma RestartRecovers(cfg: Config, s: State, downtime: seq<Action>, e: EventId)
    requires ValidConfig(cfg) && Reachable(cfg, s) && s.up && e in s.rows
    requires (forall a :: a in downtime ==> Downtime(a)) && After(cfg, Step(cfg, s, Crash), downtime).workers == map[]
    ensures var s' := After(cfg, s, CrashRun(downtime));
            && Reachable(cfg, s') && s'.up && s'.workers == map[] && s'.rows.Keys == s.rows.Keys
            && (Claimable(s'.rows[e].status) || Terminal(s'.rows[e].status)) && !Owned(s', e)
            && (s.rows[e].status.Sending? ==>
                  && Due(s'.rows[e], s'.now) && s'.rows[e].parts == s.rows[e].parts
                  && s'.rows[e].sentParts == s.rows[e].sentParts && s'.rows[e].attempts == s.rows[e].attempts)
            && (s.rows[e].status.Received? ==> Due(s'.rows[e], s'.now))
            && (!s.rows[e].status.Sending? ==> s'.rows[e] == s.rows[e])
  {
    CrashRunSteps(cfg, s, downtime);
    ReachableOn(cfg, s, CrashRun(downtime));
    ReachableInv(cfg, s);
    assert EventFits(cfg, s, e);
  }

  /**
   No row waits for ever to be listed: one that is received has no retry time and is due at once, one that
   is queued or waits for its retry has one and is due when that has come, and no other row is.
   */
  lemma WaitingFallsDue(cfg: Config, s: State, e: EventId, d: nat)
    requires ValidConfig(cfg) && Reachable(cfg, s) && e in s.rows
    ensures s.rows[e].status.Received? ==> s.rows[e].nextRetryAt.None?
    ensures s.rows[e].status.Queued? || s.rows[e].status.RetryScheduled? ==> s.rows[e].nextRetryAt.Some?
    ensures var s' := Step(cfg, s, Tick(d));
            e in DueSet(s'.rows, s'.now) <==>
              match s.rows[e].status
              case Received => true
              case Queued => s.rows[e].nextRetryAt.Some? && s.rows[e].nextRetryAt.value <= s.now + d
              case RetryScheduled => s.rows[e].nextRetryAt.Some? && s.rows[e].nextRetryAt.value <= s.now + d
              case _ => false
  {
    ReachableInv(cfg, s);
    assert EventFits(cfg, s, e);
  }

  /** And there always is such a downtime. */
  lemma RestartPossible(cfg: Config, s: State) returns (downtime: seq<Action>)
    requires ValidConfig(cfg) && Reachable(cfg, s) && s.up
    ensures (forall a :: a in downtime ==> Downtime(a)) && After(cfg, Step(cfg, s, Crash), downtime).workers == map[]
  {
    ReachableInv(cfg, s);
    StepKeeps(cfg, s, Crash);
    downtime := AllVanish(cfg, Step(cfg, s, Crash));
  }

  // ---------------------------------------------------------------------------------------------
  // Rotation and deduplication
  // ---------------------------------------------------------------------------------------------

  /** Every event ever inserted is in the table, or was final and past its retention when it was removed. */
  lemma NoLiveRecordLost(cfg: Config, s: State, e: EventId)
    requires ValidConfig(cfg) && Reachable(cfg, s) && e in s.hist
    ensures e in s.rows ||
            (s.hist[e].gone.Some? &&
             var t := s.hist[e].gone.value;
             Terminal(t.row.status) && t.row.updatedAt + Retention(cfg, t.row.status) <= t.at <= s.now
             && (if t.row.status.Delivered? then t.row.updatedAt + cfg.retentionDelivered <= t.at
                 else t.row.status in {Failed, DeadLetter} && t.row.updatedAt + cfg.retentionDeadLetter <= t.at))
  {
    ReachableInv(cfg, s);
    assert EventFits(cfg, s, e);
  }

  /** The DELETE of a rotation round has no status gate, yet it only ever hits final rows. */
  lemma DeleteHitsFinalRows(cfg: Config, s: State, ids: set<EventId>, e: EventId)
    requires ValidConfig(cfg) && Reachable(cfg, s) && Enabled(cfg, s, Delete(ids)) && e in ids
    ensures e in s.rows && Terminal(s.rows[e].status) && !Owned(s, e)
    ensures s.rows[e].updatedAt + Retention(cfg, s.rows[e].status) <= s.now
  {
    ReachableInv(cfg, s);
    assert SelectedFits(cfg, s, e);
    ExclusiveOwnership(cfg, s);
  }

  /** At most one row per idempotency key, at any moment. */
  lemma OneRowPerKey(cfg: Config, s: State, e: EventId, e': EventId)
    requires ValidConfig(cfg) && Reachable(cfg, s)
    requires e in s.rows && e' in s.rows && e != e'
    ensures s.rows[e].key != s.rows[e'].key
  {
    ReachableInv(cfg, s);
    assert EventFits(cfg, s, e) && EventFits(cfg, s, e');
    assert s.hist[e].key == s.hist[e'].key ==> Precedes(s.hist, e, e') || Precedes(s.hist, e', e);
  }

  /** e has left the table, and at the given time its retention, counted from the updated_at of its final write, was over. */
  predicate OutlivedBy(cfg: Config, s: State, e: EventId, at: Time)
    requires e in s.hist
  {
    && e !in s.rows
    && s.hist[e].gone.Some?
    && Terminal(s.hist[e].gone.value.row.status)
    && s.hist[e].gone.value.row.updatedAt + Retention(cfg, s.hist[e].gone.value.row.status) <= at
  }

  /** A webhook can only be inserted under a known key when every earlier event of that key has outlived its retention. */
  lemma InsertWaitsForRetention(cfg: Config, s: State, a: Action, e: EventId)
    requires ValidConfig(cfg) && Reachable(cfg, s)
    requires a.Create? && Enabled(cfg, s, a) && e in s.hist && s.hist[e].key == a.key
    ensures OutlivedBy(cfg, s, e, s.now)
  {
    ReachableInv(cfg, s);
    assert EventFits(cfg, s, e);
  }

  /** Of two events that ever shared a key, one had outlived its retention when the other was inserted: the one inserted earlier. */
  lemma DedupOverTime(cfg: Config, s: State, e: EventId, e': EventId)
    requires ValidConfig(cfg) && Reachable(cfg, s)
    requires e in s.hist && e' in s.hist && e != e' && s.hist[e].key == s.hist[e'].key
    ensures OutlivedBy(cfg, s, e, s.hist[e'].insertedAt) || OutlivedBy(cfg, s, e', s.hist[e].insertedAt)
    ensures s.hist[e].insertedAt < s.hist[e'].insertedAt ==> OutlivedBy(cfg, s, e, s.hist[e'].insertedAt)
  {
    ReachableInv(cfg, s);
    assert EventFits(cfg, s, e) && EventFits(cfg, s, e');
    assert Precedes(s.hist, e, e') || Precedes(s.hist, e', e);
  }

  // ---------------------------------------------------------------------------------------------
  // MarkQueued without a status gate
  // ---------------------------------------------------------------------------------------------

  predicate FinalRowsKept(s: State, s': State) {
    forall e :: e in s.rows && Terminal(s.rows[e].status) && e in s'.rows ==> s'.rows[e] == s.rows[e]
  }

  /** MarkQueued leaves ownership and final rows intact exactly when its row is neither owned nor final. */
  lemma MarkQueuedSafeIff(cfg: Config, s: State, w: WorkerId)
    requires ValidConfig(cfg) && Reachable(cfg, s) && Enabled(cfg, s, MarkQueued(w, true))
    ensures var s' := Step(cfg, s, MarkQueued(w, true));
            OwnershipHolds(s') && FinalRowsKept(s, s') <==> Gate(s, MarkQueued(w, true))
  {
    var a := MarkQueued(w, true);
    var s' := Step(cfg, s, a);
    ReachableInv(cfg, s);
    if Gate(s, a) {
      StepKeeps(cfg, s, a);
      InvOwnership(cfg, s');
    } else {
      var e := s.workers[w].ev;
      assert s'.rows[e].status.Queued?;
      if Owned(s, e) {
        var v :| v in s.workers && s.workers[v].Owning? && s.workers[v].own.ev == e;
        assert v in s'.workers && !OwnsRow(s', s'.workers[v].own);
      }
    }
  }

  /** A status gate like the one of ClaimForSend would be enough: on a claimable row MarkQueued is always harmless. */
  lemma ClaimableGateSuffices(cfg: Config, s: State, w: WorkerId)
    requires ValidConfig(cfg) && Reachable(cfg, s) && w in s.workers && s.workers[w].Creating?
    requires s.workers[w].ev in s.rows ==> Claimable(s.rows[s.workers[w].ev].status)
    ensures Gate(s, MarkQueued(w, true))
  {
    ExclusiveOwnership(cfg, s);
  }

  const TRIAL: Config := Config(3, 10, 10, 2)

  lemma AfterCons(cfg: Config, s: State, a: Action, rest: seq<Action>)
    ensures After(cfg, s, [a] + rest) == After(cfg, Step(cfg, s, a), rest)
    ensures forall e :: UnrecordedAlong(cfg, s, [a] + rest, e)
                        == Unrecorded(cfg, s, a, e) + UnrecordedAlong(cfg, Step(cfg, s, a), rest, e)
  {
  }

  function FreshHistory(key: Key, at: Time): History {
    History(key, at, [], multiset{}, 0, 0, 0, 0, None)
  }

  /** A handler (worker 0) has inserted event 7 and not queued it yet; the recovery worker (1) has claimed it. */
  function ClaimedEarly(): State {
    var row := ClaimedRow(NewRow(1, 0), 0);
    State(true, 0, map[7 := row], map[0 := Creating(7, 0), 1 := Owning(Owner(7, row, Unrendered))], {},
          map[7 := FreshHistory(1, 0).(claims := 1)], map[7 := 1])
  }

  const CLAIM_EARLY: seq<Action> := [Restart, Create(0, 7, 1, 0), Claim(1, 7, 0)]

  lemma ClaimedEarlyTrace()
    ensures After(TRIAL, INIT, CLAIM_EARLY) == ClaimedEarly()
    ensures UnrecordedAlong(TRIAL, INIT, CLAIM_EARLY, 7) == multiset{}
  {
  }

  function TextRow(): Row { RenderedRow(ClaimedRow(NewRow(1, 0), 0), ["text"], 0) }

  /** Two live owners of event 7, both about to send part 0. */
  function TwoOwners(): State {
    var row := ClaimedRow(TextRow(), 0);
    State(true, 0, map[7 := row],
          map[0 := Owning(Owner(7, row, SendingFrom(["text"], 0))),
              1 := Owning(Owner(7, ClaimedRow(NewRow(1, 0), 0), SendingFrom(["text"], 0)))], {},
          map[7 := FreshHistory(1, 0).(claims := 2)], map[7 := 0])
  }

  const CLAIM_AGAIN: seq<Action> := [Act(1, SaveParts(["text"], true, 0)), MarkQueued(0, true), Claim(0, 7, 0)]

  /** The recovery worker has rendered the event. */
  function RenderedEarly(): State {
    ClaimedEarly().(rows := map[7 := TextRow()],
                    workers := map[0 := Creating(7, 0), 1 := Owning(Owner(7, ClaimedRow(NewRow(1, 0), 0), SendingFrom(["text"], 0)))])
  }

  lemma RenderedTrace()
    ensures Step(TRIAL, ClaimedEarly(), Act(1, SaveParts(["text"], true, 0))) == RenderedEarly()
    ensures Unrecorded(TRIAL, ClaimedEarly(), Act(1, SaveParts(["text"], true, 0)), 7) == multiset{}
  {
  }

  /** The handler has queued it although it is being sent. */
  function QueuedAgain(): State {
    RenderedEarly().(rows := map[7 := QueuedRow(TextRow(), 0, 0)], workers := RenderedEarly().workers - {0})
  }

  lemma QueueTrace()
    ensures Step(TRIAL, RenderedEarly(), MarkQueued(0, true)) == QueuedAgain()
  {
  }

  lemma ClaimIsInstall(cfg: Config, s: State, w: WorkerId, e: EventId, at: Time, row: Row, h: History)
    requires Enabled(cfg, s, Claim(w, e, at)) && row == ClaimedRow(s.rows[e], at) && h == s.hist[e].(claims := s.hist[e].claims + 1)
    requires row.parts != []
    ensures Step(cfg, s, Claim(w, e, at))
         == s.(rows := s.rows[e := row], hist := s.hist[e := h], holders := s.holders[e := w],
               workers := s.workers[w := Owning(Owner(e, row, SendingFrom(row.parts, row.sentParts)))])
  {
  }

  lemma ClaimAgainTrace()
    ensures Step(TRIAL, QueuedAgain(), Claim(0, 7, 0)) == TwoOwners()
  {
    var s, row := QueuedAgain(), ClaimedRow(TextRow(), 0);
    ClaimIsInstall(TRIAL, s, 0, 7, 0, row, FreshHistory(1, 0).(claims := 2));
    assert s.rows[7 := row] == TwoOwners().rows && s.holders[7 := 0] == TwoOwners().holders;
    assert s.workers[0 := Owning(Owner(7, row, SendingFrom(["text"], 0)))] == TwoOwners().workers;
  }

  lemma QueuedAgainTrace()
    ensures After(TRIAL, RenderedEarly(), [MarkQueued(0, true), Claim(0, 7, 0)]) == TwoOwners()
    ensures UnrecordedAlong(TRIAL, RenderedEarly(), [MarkQueued(0, true), Claim(0, 7, 0)], 7) == multiset{}
  {
    var b, c := MarkQueued(0, true), Claim(0, 7, 0);
    assert [b, c] == [b] + [c] && [c] == [c] + [];
    QueueTrace();
    ClaimAgainTrace();
    AfterCons(TRIAL, RenderedEarly(), b, [c]);
    AfterCons(TRIAL, QueuedAgain(), c, []);
  }

  lemma TwoOwnersTrace()
    ensures After(TRIAL, ClaimedEarly(), CLAIM_AGAIN) == TwoOwners()
    ensures UnrecordedAlong(TRIAL, ClaimedEarly(), CLAIM_AGAIN, 7) == multiset{}
  {
    assert CLAIM_AGAIN == [CLAIM_AGAIN[0]] + [MarkQueued(0, true), Claim(0, 7, 0)];
    AfterCons(TRIAL, ClaimedEarly(), CLAIM_AGAIN[0], [MarkQueued(0, true), Claim(0, 7, 0)]);
    RenderedTrace();
    QueuedAgainTrace();
  }

  /** Two live owners of one event, and its first part accepted from both. */
  predicate SentByBoth(s: State, e: EventId, w: WorkerId, w': WorkerId) {
    && w != w' && w in s.workers && w' in s.workers
    && s.workers[w].Owning? && s.workers[w].own.ev == e
    && s.workers[w'].Owning? && s.workers[w'].own.ev == e
    && e in s.hist && |s.hist[e].accepted| == 2
    && s.hist[e].accepted[0].index == s.hist[e].accepted[1].index == 0
  }

  const SEND_BOTH: seq<Action> := [Act(0, Send(Ack(50))), Act(1, Send(Ack(51)))]

  lemma SendBothTrace()
    ensures var s := After(TRIAL, TwoOwners(), SEND_BOTH);
            SentByBoth(s, 7, 0, 1)
    ensures UnrecordedAlong(TRIAL, TwoOwners(), SEND_BOTH, 7) == multiset{}
  {
  }

  lemma {:induction false} UnrecordedConcat(cfg: Config, s: State, xs: seq<Action>, ys: seq<Action>, e: EventId)
    ensures UnrecordedAlong(cfg, s, xs + ys, e) ==
            UnrecordedAlong(cfg, s, xs, e) + UnrecordedAlong(cfg, After(cfg, s, xs), ys, e)
    decreases |xs|
  {
    if xs == [] {
      assert xs + ys == ys;
    } else {
      assert (xs + ys)[1..] == xs[1..] + ys;
      UnrecordedConcat(cfg, Step(cfg, s, xs[0]), xs[1..], ys, e);
    }
  }

  /** A run in which some part is accepted twice although nothing was lost. */
  ghost predicate SendsTwice(cfg: Config) {
    exists acts, e, w, w' ::
      SentByBoth(After(cfg, INIT, acts), e, w, w') && UnrecordedAlong(cfg, INIT, acts, e) == multiset{}
  }

  lemma SendsTwiceBy(cfg: Config, xs: seq<Action>, s1: State, ys: seq<Action>, s2: State, zs: seq<Action>,
                     e: EventId, w: WorkerId, w': WorkerId)
    requires After(cfg, INIT, xs) == s1 && After(cfg, s1, ys) == s2 && SentByBoth(After(cfg, s2, zs), e, w, w')
    requires UnrecordedAlong(cfg, INIT, xs, e) == UnrecordedAlong(cfg, s1, ys, e) == UnrecordedAlong(cfg, s2, zs, e) == multiset{}
    ensures SendsTwice(cfg)
  {
    AfterConcat(cfg, INIT, xs, ys);
    AfterConcat(cfg, INIT, xs + ys, zs);
    UnrecordedConcat(cfg, INIT, xs, ys, e);
    UnrecordedConcat(cfg, INIT, xs + ys, zs, e);
  }

  /**
   Without the discipline: a handler queues a row the recovery worker already claimed. Two workers own
   it, and part 0 is accepted twice although no write, acknowledgement or goroutine was lost.
   */
  lemma UngatedMarkQueuedSendsTwice()
    ensures SendsTwice(TRIAL)
  {
    ClaimedEarlyTrace();
    TwoOwnersTrace();
    SendBothTrace();
    SendsTwiceBy(TRIAL, CLAIM_EARLY, ClaimedEarly(), CLAIM_AGAIN, TwoOwners(), SEND_BOTH, 7, 0, 1);
  }

  /** The claim failed for good, the retention passed, and rotation has selected the row. */
  function SelectedFailed(): State {
    var row := TerminalRow(ClaimedRow(NewRow(1, 0), 0), Failed, 0);
    State(true, 10, map[7 := row], map[0 := Creating(7, 0)], {7}, map[7 := FreshHistory(1, 0).(claims := 1)], map[])
  }

  function FailedEarly(): State {
    SelectedFailed().(now := 0, selected := {})
  }

  const FAIL: seq<Action> := [Act(1, RenderFailed), Act(1, Close(0, true))]

  lemma FailedTrace()
    ensures After(TRIAL, ClaimedEarly(), FAIL) == FailedEarly()
  {
  }

  const WAIT_AND_SELECT: seq<Action> := [Tick(10), Select(0, 0, {7})]

  lemma SelectedTrace()
    ensures After(TRIAL, FailedEarly(), WAIT_AND_SELECT) == SelectedFailed()
  {
  }

  const QUEUE_AND_DELETE: seq<Action> := [MarkQueued(0, true), Delete({7})]

  /** The event left the table while it was still waiting to be sent. */
  predicate LostLive(s: State, e: EventId) {
    e !in s.rows && e in s.hist && s.hist[e].gone.Some? && Claimable(s.hist[e].gone.value.row.status)
  }

  lemma QueueAndDeleteTrace()
    ensures LostLive(After(TRIAL, SelectedFailed(), QUEUE_AND_DELETE), 7)
  {
  }

  ghost predicate LosesRecord(cfg: Config) {
    exists acts, e :: LostLive(After(cfg, INIT, acts), e)
  }

  lemma LosesRecordBy(cfg: Config, xs: seq<Action>, s1: State, ys: seq<Action>, s2: State, zs: seq<Action>, e: EventId)
    requires After(cfg, INIT, xs) == s1 && After(cfg, s1, ys) == s2 && LostLive(After(cfg, s2, zs), e)
    ensures LosesRecord(cfg)
  {
    AfterConcat(cfg, INIT, xs, ys);
    AfterConcat(cfg, INIT, xs + ys, zs);
  }

  /** Without the discipline: a final row goes back to the queue between the SELECT and the DELETE of a rotation round, and is lost. */
  lemma UngatedMarkQueuedLosesRecord()
    ensures LosesRecord(TRIAL)
  {
    ClaimedEarlyTrace();
    FailedTrace();
    SelectedTrace();
    QueueAndDeleteTrace();
    AfterConcat(TRIAL, ClaimedEarly(), FAIL, WAIT_AND_SELECT);
    LosesRecordBy(TRIAL, CLAIM_EARLY, ClaimedEarly(), FAIL + WAIT_AND_SELECT, SelectedFailed(), QUEUE_AND_DELETE, 7);
  }
}
