/** Facts behind the rotation loop: under fixed cutoffs no row becomes rotatable while other goroutines run. */
module Rotation {
  import opened Options
  import opened Deliveries
  import opened Storage
  import opened Outbox
  import opened OutboxInvariant
  import opened OutboxTheorems
  import opened Interference

  /** deleted[status]++ for the three final states. */
  datatype Tally = Tally(delivered: nat, failed: nat, deadLetter: nat) {
    function Total(): nat { delivered + failed + deadLetter }

    function Add(s: Status): Tally {
      match s
      case Delivered => this.(delivered := delivered + 1)
      case Failed => this.(failed := failed + 1)
      case DeadLetter => this.(deadLetter := deadLetter + 1)
      case _ => this
    }
  }

  predicate CutoffsPassed(cfg: Config, now: Time, deliveredBefore: Time, terminalBefore: Time) {
    deliveredBefore <= now - cfg.retentionDelivered && terminalBefore <= now - cfg.retentionDeadLetter
  }

  /** Rotation is serialized by a mutex, and the process stays up. */
  predicate Bystander(a: Action) {
    !a.Select? && !a.Delete? && !a.Drop? && !a.Crash?
  }

  lemma FinishTime(cfg: Config, now: Time, l: Local, m: Move)
    requires l.own.Some? && CanMove(l.own.value, now, m)
    requires !Terminal(l.row.status) && Terminal(MoveEffect(cfg, now, l, m).row.status)
    ensures var r := MoveEffect(cfg, now, l, m).row;
            if m.MarkDelivered? then m.ok && r.status.Delivered? && r.updatedAt == m.at
            else m.Close? && m.ok && (l.own.value.phase.goal.Fail? || l.own.value.phase.goal.Dead?) && !r.status.Delivered? && r.updatedAt == m.at
  {
  }

  /** The move makes its row final, with a time sampled at or before the cutoff of that final state. */
  predicate StaleMove(o: Owner, m: Move, deliveredBefore: Time, terminalBefore: Time) {
    match m
    case MarkDelivered(at, ok, _) => ok && at <= deliveredBefore
    case Close(at, ok) => ok && at <= terminalBefore && o.phase.Closing? && (o.phase.goal.Fail? || o.phase.goal.Dead?)
    case _ => false
  }

  predicate Stale(cfg: Config, s: State, a: Action, deliveredBefore: Time, terminalBefore: Time) {
    a.Act? && Enabled(cfg, s, a) && s.workers[a.w].Owning? && StaleMove(s.workers[a.w].own, a.move, deliveredBefore, terminalBefore)
  }

  /** A row that is not final yet does not become rotatable in one step: its last write is too young. */
  lemma NotYetRotatable(cfg: Config, s: State, a: Action, e: EventId, deliveredBefore: Time, terminalBefore: Time)
    requires ValidConfig(cfg) && CutoffsPassed(cfg, s.now, deliveredBefore, terminalBefore)
    requires !Stale(cfg, s, a, deliveredBefore, terminalBefore)
    requires e in Step(cfg, s, a).rows && (e in s.rows ==> !Terminal(s.rows[e].status))
    ensures !Rotatable(Step(cfg, s, a).rows[e], deliveredBefore, terminalBefore)
  {
    if a.Act? && Enabled(cfg, s, a) && s.workers[a.w].Owning? && s.workers[a.w].own.ev == e {
      var l := Local(s.rows[e], s.hist[e], Some(s.workers[a.w].own));
      if Terminal(MoveEffect(cfg, s.now, l, a.move).row.status) {
        FinishTime(cfg, s.now, l, a.move);
      }
    }
  }

  lemma StaleBecomesRotatable(cfg: Config, s: State, a: Action, deliveredBefore: Time, terminalBefore: Time)
    requires Inv(cfg, s) && Stale(cfg, s, a, deliveredBefore, terminalBefore)
    ensures var e := s.workers[a.w].own.ev;
            && e !in RotatableSet(s.rows, deliveredBefore, terminalBefore)
            && e in RotatableSet(Step(cfg, s, a).rows, deliveredBefore, terminalBefore)
  {
    var e := s.workers[a.w].own.ev;
    assert WorkerFits(s, a.w) && EventFits(cfg, s, e);
  }

  lemma NoneBecomesRotatable(cfg: Config, s: State, a: Action, deliveredBefore: Time, terminalBefore: Time)
    requires ValidConfig(cfg) && TableEvolves(s, Step(cfg, s, a))
    requires CutoffsPassed(cfg, s.now, deliveredBefore, terminalBefore) && !Stale(cfg, s, a, deliveredBefore, terminalBefore)
    ensures RotatableSet(Step(cfg, s, a).rows, deliveredBefore, terminalBefore) <= RotatableSet(s.rows, deliveredBefore, terminalBefore)
  {
    var rows := Step(cfg, s, a).rows;
    forall e | e in rows && Rotatable(rows[e], deliveredBefore, terminalBefore)
      ensures e in s.rows && Rotatable(s.rows[e], deliveredBefore, terminalBefore)
    {
      if e in s.rows ==> !Terminal(s.rows[e].status) {
        NotYetRotatable(cfg, s, a, e, deliveredBefore, terminalBefore);
      }
    }
  }

  /** One step of the system makes a row rotatable under fixed cutoffs if and only if it makes a row final with a stale time. */
  lemma RotatableGrowsIff(cfg: Config, s: State, a: Action, deliveredBefore: Time, terminalBefore: Time)
    requires ValidConfig(cfg) && Inv(cfg, s) && Gate(s, a) && CutoffsPassed(cfg, s.now, deliveredBefore, terminalBefore)
    ensures Stale(cfg, s, a, deliveredBefore, terminalBefore)
        <==> !(RotatableSet(Step(cfg, s, a).rows, deliveredBefore, terminalBefore) <= RotatableSet(s.rows, deliveredBefore, terminalBefore))
  {
    if Stale(cfg, s, a, deliveredBefore, terminalBefore) {
      StaleBecomesRotatable(cfg, s, a, deliveredBefore, terminalBefore);
    } else {
      StepKeeps(cfg, s, a);
      NoneBecomesRotatable(cfg, s, a, deliveredBefore, terminalBefore);
    }
  }

  /** How long the final state that the move leads to is kept. */
  function RetentionAfter(cfg: Config, m: Move): Time {
    if m.MarkDelivered? then cfg.retentionDelivered else cfg.retentionDeadLetter
  }

  /**
   Such steps exist: whatever final write waits as long as the retention after its time was sampled,
   the row it leaves is rotatable at once.
   */
  lemma LateFinalWrite(cfg: Config, s: State, w: WorkerId, m: Move)
    requires ValidConfig(cfg) && Reachable(cfg, s) && Enabled(cfg, s, Act(w, m)) && s.workers[w].Owning?
    requires (m.MarkDelivered? || m.Close?) && m.at == s.now && StaleMove(s.workers[w].own, m, s.now, s.now)
    ensures var e := s.workers[w].own.ev;
            var s' := After(cfg, s, [Tick(RetentionAfter(cfg, m)), Act(w, m)]);
            e in RotatableSet(s'.rows, s'.now - cfg.retentionDelivered, s'.now - cfg.retentionDeadLetter)
  {
    var wait, a := Tick(RetentionAfter(cfg, m)), Act(w, m);
    var late := Step(cfg, s, wait);
    ReachableInv(cfg, s);
    StepKeeps(cfg, s, wait);
    StaleBecomesRotatable(cfg, late, a, late.now - cfg.retentionDelivered, late.now - cfg.retentionDeadLetter);
    assert After(cfg, late, [a]) == After(cfg, Step(cfg, late, a), []);
    assert [wait, a][1..] == [a];
  }

  /** The table grows by what is inserted, and loses nothing. */
  predicate OnlyInserts(s: State, s': State) {
    s.hist.Keys <= s'.hist.Keys && s'.rows.Keys == s.rows.Keys + (s'.hist.Keys - s.hist.Keys)
  }

  lemma BystanderKeepsRows(cfg: Config, s: State, a: Action)
    requires Bystander(a)
    ensures var s' := Step(cfg, s, a);
            s'.selected == s.selected && OnlyInserts(s, s') && s.now <= s'.now
  {
  }

  lemma BystanderStep(cfg: Config, s: State, a: Action, deliveredBefore: Time, terminalBefore: Time)
    requires ValidConfig(cfg) && TableEvolves(s, Step(cfg, s, a))
    requires CutoffsPassed(cfg, s.now, deliveredBefore, terminalBefore)
    requires Bystander(a) && !Stale(cfg, s, a, deliveredBefore, terminalBefore)
    ensures var s' := Step(cfg, s, a);
            && CutoffsPassed(cfg, s'.now, deliveredBefore, terminalBefore)
            && s'.selected == s.selected && OnlyInserts(s, s')
            && RotatableSet(s'.rows, deliveredBefore, terminalBefore) == RotatableSet(s.rows, deliveredBefore, terminalBefore)
            && (forall e :: e in s.rows && Terminal(s.rows[e].status) ==> s'.rows[e] == s.rows[e])
  {
    BystanderKeepsRows(cfg, s, a);
    NoneBecomesRotatable(cfg, s, a, deliveredBefore, terminalBefore);
  }

  /** No step of the run makes a row final with a stale time. */
  predicate NoneStale(cfg: Config, s: State, acts: seq<Action>, deliveredBefore: Time, terminalBefore: Time)
    decreases |acts|
  {
    acts == [] || (!Stale(cfg, s, acts[0], deliveredBefore, terminalBefore)
                   && NoneStale(cfg, Step(cfg, s, acts[0]), acts[1..], deliveredBefore, terminalBefore))
  }

  /** The actions of `acts` that are allowed, disciplined and not stale where they come up. */
  function Timely(cfg: Config, allow: Action -> bool, s: State, acts: seq<Action>, deliveredBefore: Time, terminalBefore: Time): (trace: seq<Action>)
    ensures Disciplined(cfg, s, trace) && NoneStale(cfg, s, trace, deliveredBefore, terminalBefore)
    ensures forall a :: a in trace ==> a in acts && allow(a)
    decreases |acts|
  {
    if acts == [] then []
    else if allow(acts[0]) && Gate(s, acts[0]) && !Stale(cfg, s, acts[0], deliveredBefore, terminalBefore)
    then [acts[0]] + Timely(cfg, allow, Step(cfg, s, acts[0]), acts[1..], deliveredBefore, terminalBefore)
    else Timely(cfg, allow, s, acts[1..], deliveredBefore, terminalBefore)
  }

  /** Over any steps of the others, none of them stale, the rotatable rows stay the same rows. */
  lemma {:induction false} BystanderRun(cfg: Config, s: State, acts: seq<Action>, deliveredBefore: Time, terminalBefore: Time)
    requires ValidConfig(cfg) && Inv(cfg, s) && Disciplined(cfg, s, acts)
    requires CutoffsPassed(cfg, s.now, deliveredBefore, terminalBefore)
    requires (forall a :: a in acts ==> Bystander(a)) && NoneStale(cfg, s, acts, deliveredBefore, terminalBefore)
    ensures var s' := After(cfg, s, acts);
            && CutoffsPassed(cfg, s'.now, deliveredBefore, terminalBefore)
            && s'.selected == s.selected && OnlyInserts(s, s')
            && RotatableSet(s'.rows, deliveredBefore, terminalBefore) == RotatableSet(s.rows, deliveredBefore, terminalBefore)
            && (forall e :: e in s.rows && Terminal(s.rows[e].status) ==> s'.rows[e] == s.rows[e])
    decreases |acts|
  {
    if acts != [] {
      StepKeeps(cfg, s, acts[0]);
      BystanderStep(cfg, s, acts[0], deliveredBefore, terminalBefore);
      BystanderRun(cfg, Step(cfg, s, acts[0]), acts[1..], deliveredBefore, terminalBefore);
    }
  }

  /** gone: the events that were in the table at s0 or came in since, and are not in it any more. */
  predicate Accounts(s0: State, s: State, gone: map<EventId, Row>) {
    && s0.hist.Keys <= s.hist.Keys
    && s.rows.Keys !! gone.Keys
    && s.rows.Keys + gone.Keys == s0.rows.Keys + (s.hist.Keys - s0.hist.Keys)
  }

  lemma AccountsInsert(s0: State, s: State, s': State, gone: map<EventId, Row>)
    requires Accounts(s0, s, gone) && OnlyInserts(s, s') && gone.Keys <= s.hist.Keys
    ensures Accounts(s0, s', gone)
  {
  }

  lemma AccountsFrom(s0: State, s1: State, s: State, gone: map<EventId, Row>)
    requires OnlyInserts(s0, s1) && Accounts(s1, s, gone) && s.rows.Keys <= s.hist.Keys && s1.rows.Keys <= s1.hist.Keys
    ensures Accounts(s0, s, gone)
    ensures gone.Keys == s0.rows.Keys + (s.hist.Keys - s0.hist.Keys) - s.rows.Keys
    ensures s0.rows.Keys <= s0.hist.Keys ==> gone.Keys * s0.rows.Keys == s0.rows.Keys - s.rows.Keys
  {
  }

  function Picked(rows: Table, ids: set<EventId>): map<EventId, Row> {
    map e | e in ids && e in rows :: rows[e]
  }

  lemma AccountsDelete(s0: State, s: State, s': State, gone: map<EventId, Row>, ids: set<EventId>)
    requires Accounts(s0, s, gone) && ids <= s.rows.Keys && s'.rows.Keys == s.rows.Keys - ids && s'.hist.Keys == s.hist.Keys
    ensures Accounts(s0, s', gone + Picked(s.rows, ids))
  {
    assert Picked(s.rows, ids).Keys == ids;
  }

  /** What left the table stays on record as it left. */
  lemma GoneStep(cfg: Config, s: State, a: Action, e: EventId)
    requires Inv(cfg, s) && e in s.hist && s.hist[e].gone.Some?
    ensures e in Step(cfg, s, a).hist && Step(cfg, s, a).hist[e].gone == s.hist[e].gone
  {
    assert EventFits(cfg, s, e);
  }

  lemma {:induction false} GoneStays(cfg: Config, s: State, acts: seq<Action>, e: EventId)
    requires ValidConfig(cfg) && Inv(cfg, s) && Disciplined(cfg, s, acts)
    requires e in s.hist && s.hist[e].gone.Some?
    ensures e in After(cfg, s, acts).hist && After(cfg, s, acts).hist[e].gone == s.hist[e].gone
    decreases |acts|
  {
    if acts != [] {
      GoneStep(cfg, s, acts[0], e);
      StepKeeps(cfg, s, acts[0]);
      GoneStays(cfg, Step(cfg, s, acts[0]), acts[1..], e);
    }
  }

  function In(gone: map<EventId, Row>, status: Status): set<EventId> {
    set e | e in gone && gone[e].status == status
  }

  /** The tally counts the removed events under the final state each was in. */
  predicate Tallies(gone: map<EventId, Row>, tally: Tally) {
    && (forall e :: e in gone ==> Terminal(gone[e].status))
    && tally.delivered == |In(gone, Delivered)|
    && tally.failed == |In(gone, Failed)|
    && tally.deadLetter == |In(gone, DeadLetter)|
  }

  lemma InAdd(gone: map<EventId, Row>, e: EventId, row: Row, status: Status)
    requires e !in gone
    ensures |In(gone[e := row], status)| == |In(gone, status)| + if row.status == status then 1 else 0
  {
    var was, now := In(gone, status), In(gone[e := row], status);
    if row.status == status {
      assert now == was + {e};
    } else {
      assert now == was;
    }
  }

  lemma TallyAdd(gone: map<EventId, Row>, tally: Tally, e: EventId, row: Row)
    requires Tallies(gone, tally) && e !in gone && Terminal(row.status)
    ensures Tallies(gone[e := row], tally.Add(row.status))
  {
    InAdd(gone, e, row, Delivered);
    InAdd(gone, e, row, Failed);
    InAdd(gone, e, row, DeadLetter);
  }

  lemma ThreeSizes(a: set<EventId>, b: set<EventId>, c: set<EventId>)
    requires a !! b && a !! c && b !! c
    ensures |a + b + c| == |a| + |b| + |c|
  {
  }

  /** Per-state counts sum to the number of rows removed. */
  lemma TallyTotal(gone: map<EventId, Row>, tally: Tally)
    requires Tallies(gone, tally)
    ensures tally.Total() == |gone|
  {
    var d, f, l := In(gone, Delivered), In(gone, Failed), In(gone, DeadLetter);
    assert gone.Keys == d + f + l;
    ThreeSizes(d, f, l);
  }

  /** The removed events are on record, with the row they had, and gone from the table. */
  predicate Removed(s: State, gone: map<EventId, Row>) {
    forall e :: e in gone ==>
      e in s.hist && e !in s.rows && s.hist[e].gone.Some? && s.hist[e].gone.value.row == gone[e]
  }

  lemma RemovedStays(cfg: Config, s: State, acts: seq<Action>, gone: map<EventId, Row>)
    requires ValidConfig(cfg) && Inv(cfg, s) && Disciplined(cfg, s, acts) && Removed(s, gone)
    ensures Removed(After(cfg, s, acts), gone)
  {
    RunKeeps(cfg, s, acts);
    forall e | e in gone
      ensures var s' := After(cfg, s, acts);
              e in s'.hist && e !in s'.rows && s'.hist[e].gone == s.hist[e].gone
    {
      GoneStays(cfg, s, acts, e);
    }
  }

  lemma PickedSame(rows: Table, rows': Table, ids: set<EventId>)
    requires ids <= rows.Keys && ids <= rows'.Keys && forall e :: e in ids ==> rows'[e] == rows[e]
    ensures Picked(rows', ids) == Picked(rows, ids)
  {
  }

  lemma PickedNext(rows: Table, gone: map<EventId, Row>, ids: set<EventId>, e: EventId)
    requires e in rows && e !in gone && e !in ids
    ensures gone + Picked(rows, ids + {e}) == (gone + Picked(rows, ids))[e := rows[e]]
    ensures e !in gone + Picked(rows, ids)
  {
  }

  /** Counts the candidates of a round by their state. */
  method CountCandidates(rows: Table, candidates: seq<EventId>, tally: Tally, ghost gone: map<EventId, Row>) returns (r: Tally)
    requires Tallies(gone, tally)
    requires forall i :: 0 <= i < |candidates| ==>
               candidates[i] in rows && Terminal(rows[candidates[i]].status) && candidates[i] !in gone
    requires forall i, j :: 0 <= i < j < |candidates| ==> candidates[i] != candidates[j]
    ensures Tallies(gone + Picked(rows, Ids(candidates)), r)
  {
    r := tally;
    assert gone + Picked(rows, Ids(candidates[..0])) == gone;
    for k := 0 to |candidates|
      invariant Tallies(gone + Picked(rows, Ids(candidates[..k])), r)
    {
      var e := candidates[k];
      IdsNext(candidates, k);
      PickedNext(rows, gone, Ids(candidates[..k]), e);
      TallyAdd(gone + Picked(rows, Ids(candidates[..k])), r, e, rows[e]);
      r := r.Add(rows[e].status);
    }
    assert candidates[..|candidates|] == candidates;
  }

  /** The DELETE of a round removes exactly its batch and leaves each row on record. */
  lemma DeleteRemoves(cfg: Config, s: State, ids: set<EventId>, gone: map<EventId, Row>, deliveredBefore: Time, terminalBefore: Time)
    requires Enabled(cfg, s, Delete(ids)) && ids <= s.rows.Keys <= s.hist.Keys && Removed(s, gone)
    ensures var s' := Step(cfg, s, Delete(ids));
            && Removed(s', gone + Picked(s.rows, ids))
            && RotatableSet(s'.rows, deliveredBefore, terminalBefore) == RotatableSet(s.rows, deliveredBefore, terminalBefore) - ids
            && s'.selected == s.selected - ids && s'.now == s.now && s'.up
            && s'.rows == s.rows - ids && s'.hist.Keys == s.hist.Keys
  {
  }

  /** No removed row had changed later than one that is left. */
  predicate OldestFirst(rows: Table, gone: map<EventId, Row>, deliveredBefore: Time, terminalBefore: Time) {
    forall e, e' :: e in gone && e' in RotatableSet(rows, deliveredBefore, terminalBefore) ==> gone[e].updatedAt <= rows[e'].updatedAt
  }

  /** The same final rows are left, and nothing else is rotatable. */
  predicate SameLeft(rows: Table, rows': Table, left: set<EventId>, deliveredBefore: Time, terminalBefore: Time) {
    && RotatableSet(rows', deliveredBefore, terminalBefore) == left <= rows.Keys
    && forall e :: e in left ==> rows'[e] == rows[e]
  }

  lemma SameLeftJoin(rows: Table, rows': Table, rows'': Table, left: set<EventId>, left': set<EventId>,
                     deliveredBefore: Time, terminalBefore: Time)
    requires SameLeft(rows, rows', left, deliveredBefore, terminalBefore) && SameLeft(rows', rows'', left', deliveredBefore, terminalBefore)
    requires left' <= left
    ensures SameLeft(rows, rows'', left', deliveredBefore, terminalBefore)
  {
  }

  lemma OrderGoesOn(rows: Table, rows': Table, gone: map<EventId, Row>, candidates: seq<EventId>, deliveredBefore: Time, terminalBefore: Time)
    requires OldestFirst(rows, gone, deliveredBefore, terminalBefore)
    requires Lowest(candidates, RotatableSet(rows, deliveredBefore, terminalBefore), UpdatedAt(rows), 100)
    requires SameLeft(rows, rows', RotatableSet(rows, deliveredBefore, terminalBefore) - Ids(candidates), deliveredBefore, terminalBefore)
    ensures OldestFirst(rows', gone + Picked(rows, Ids(candidates)), deliveredBefore, terminalBefore)
  {
    var picked := Picked(rows, Ids(candidates));
    forall e, e' | e in gone + picked && e' in RotatableSet(rows', deliveredBefore, terminalBefore)
      ensures (gone + picked)[e].updatedAt <= rows'[e'].updatedAt
    {
      if e in picked {
        var i :| 0 <= i < |candidates| && candidates[i] == e;
        assert e' !in candidates by {
          assert e' !in Ids(candidates);
        }
        assert UpdatedAt(rows)[candidates[i]] <= UpdatedAt(rows)[e'];
      }
    }
  }

  /** How many of n rows k rounds of a hundred remove. */
  function Most(k: nat, n: nat): nat {
    if n < 100 * k then n else 100 * k
  }

  lemma CountGoesOn(all: set<EventId>, gone: set<EventId>, candidates: seq<EventId>, rank: map<EventId, Time>, k: nat)
    requires gone <= all && |gone| == Most(k, |all|) && Lowest(candidates, all - gone, rank, 100)
    ensures |gone + Ids(candidates)| == Most(k + 1, |all|)
  {
    IdsCount(candidates);
    assert all == gone + (all - gone);
  }

  /** The events removed in k rounds: a hundred a round as long as there are, rotatable at first, those unchanged longest first. */
  predicate Selection(first: Table, rows: Table, deliveredBefore: Time, terminalBefore: Time, gone: map<EventId, Row>, k: nat) {
    && gone.Keys <= RotatableSet(first, deliveredBefore, terminalBefore)
    && RotatableSet(rows, deliveredBefore, terminalBefore) == RotatableSet(first, deliveredBefore, terminalBefore) - gone.Keys
    && OldestFirst(rows, gone, deliveredBefore, terminalBefore)
    && |gone.Keys| == Most(k, |RotatableSet(first, deliveredBefore, terminalBefore)|)
  }

  lemma PickedKeys(rows: Table, gone: map<EventId, Row>, candidates: seq<EventId>, all: set<EventId>)
    requires all <= rows.Keys && Lowest(candidates, all, UpdatedAt(rows), 100)
    ensures Ids(candidates) <= all && (gone + Picked(rows, Ids(candidates))).Keys == gone.Keys + Ids(candidates)
  {
    assert Picked(rows, Ids(candidates)).Keys == Ids(candidates);
  }

  lemma LeftGoesOn(all: set<EventId>, gone: set<EventId>, left: set<EventId>, ids: set<EventId>)
    requires gone <= all && left == all - gone && ids <= left
    ensures gone + ids <= all && left - ids == all - (gone + ids)
  {
  }

  lemma SelectionGoesOn(first: Table, rows: Table, rows': Table, deliveredBefore: Time, terminalBefore: Time,
                        gone: map<EventId, Row>, candidates: seq<EventId>, k: nat)
    requires Selection(first, rows, deliveredBefore, terminalBefore, gone, k)
    requires Lowest(candidates, RotatableSet(rows, deliveredBefore, terminalBefore), UpdatedAt(rows), 100)
    requires SameLeft(rows, rows', RotatableSet(rows, deliveredBefore, terminalBefore) - Ids(candidates), deliveredBefore, terminalBefore)
    ensures Selection(first, rows', deliveredBefore, terminalBefore, gone + Picked(rows, Ids(candidates)), k + 1)
  {
    var all, left := RotatableSet(first, deliveredBefore, terminalBefore), RotatableSet(rows, deliveredBefore, terminalBefore);
    PickedKeys(rows, gone, candidates, left);
    LeftGoesOn(all, gone.Keys, left, Ids(candidates));
    CountGoesOn(all, gone.Keys, candidates, UpdatedAt(rows), k);
    OrderGoesOn(rows, rows', gone, candidates, deliveredBefore, terminalBefore);
  }

  /** What the rotation loop has done in k rounds since `start`: counted exactly what it removed, and removed the right rows. */
  predicate RotationFits(start: State, s: State, deliveredBefore: Time, terminalBefore: Time, tally: Tally, gone: map<EventId, Row>, k: nat) {
    && Tallies(gone, tally) && Removed(s, gone) && Accounts(start, s, gone)
    && Selection(start.rows, s.rows, deliveredBefore, terminalBefore, gone, k)
  }

  lemma RotationStarts(s: State, deliveredBefore: Time, terminalBefore: Time)
    ensures RotationFits(s, s, deliveredBefore, terminalBefore, Tally(0, 0, 0), map[], 0)
  {
    var none: map<EventId, Row> := map[];
    assert In(none, Delivered) == In(none, Failed) == In(none, DeadLetter) == {};
    assert none.Keys == {};
  }

  lemma RotationGoesOn(start: State, s: State, s': State, deliveredBefore: Time, terminalBefore: Time,
                       tally: Tally, tally': Tally, gone: map<EventId, Row>, candidates: seq<EventId>, k: nat)
    requires RotationFits(start, s, deliveredBefore, terminalBefore, tally, gone, k)
    requires Lowest(candidates, RotatableSet(s.rows, deliveredBefore, terminalBefore), UpdatedAt(s.rows), 100)
    requires Tallies(gone + Picked(s.rows, Ids(candidates)), tally') && Removed(s', gone + Picked(s.rows, Ids(candidates)))
    requires Accounts(start, s', gone + Picked(s.rows, Ids(candidates)))
    requires SameLeft(s.rows, s'.rows, RotatableSet(s.rows, deliveredBefore, terminalBefore) - Ids(candidates), deliveredBefore, terminalBefore)
    ensures RotationFits(start, s', deliveredBefore, terminalBefore, tally', gone + Picked(s.rows, Ids(candidates)), k + 1)
  {
    SelectionGoesOn(start.rows, s.rows, s'.rows, deliveredBefore, terminalBefore, gone, candidates, k);
  }

  lemma NothingListed(rows: Table, candidates: seq<EventId>, deliveredBefore: Time, terminalBefore: Time)
    requires candidates == [] && Lowest(candidates, RotatableSet(rows, deliveredBefore, terminalBefore), UpdatedAt(rows), 100)
    ensures RotatableSet(rows, deliveredBefore, terminalBefore) == {}
  {
  }

  lemma FewerLeft(rows: Table, rows': Table, candidates: seq<EventId>, deliveredBefore: Time, terminalBefore: Time)
    requires candidates != [] && Ids(candidates) <= RotatableSet(rows, deliveredBefore, terminalBefore)
    requires SameLeft(rows, rows', RotatableSet(rows, deliveredBefore, terminalBefore) - Ids(candidates), deliveredBefore, terminalBefore)
    ensures |RotatableSet(rows', deliveredBefore, terminalBefore)| < |RotatableSet(rows, deliveredBefore, terminalBefore)|
  {
    assert candidates[0] in Ids(candidates) && candidates[0] in RotatableSet(rows, deliveredBefore, terminalBefore);
    SubsetCount(RotatableSet(rows', deliveredBefore, terminalBefore), RotatableSet(rows, deliveredBefore, terminalBefore) - {candidates[0]});
  }

  lemma GoneAndLeft(all: set<EventId>, left: set<EventId>, gone: map<EventId, Row>, k: nat)
    requires gone.Keys <= all && left == all - gone.Keys && |gone.Keys| == Most(k, |all|)
    ensures |gone| == Most(k, |gone| + |left|)
  {
    assert all == gone.Keys + left && gone.Keys !! left;
    assert |all| == |gone.Keys| + |left|;
    assert |gone.Keys| == |gone|;
  }

  /** As many rows are gone as k rounds remove of the gone ones and those still rotatable. */
  predicate AsMany(rows: Table, deliveredBefore: Time, terminalBefore: Time, gone: map<EventId, Row>, k: nat) {
    |gone| == Most(k, |gone| + |RotatableSet(rows, deliveredBefore, terminalBefore)|)
  }

  lemma SelectionCounts(first: Table, rows: Table, deliveredBefore: Time, terminalBefore: Time, gone: map<EventId, Row>, k: nat)
    requires Selection(first, rows, deliveredBefore, terminalBefore, gone, k)
    ensures AsMany(rows, deliveredBefore, terminalBefore, gone, k)
  {
    GoneAndLeft(RotatableSet(first, deliveredBefore, terminalBefore), RotatableSet(rows, deliveredBefore, terminalBefore), gone, k);
  }

  lemma LeftTheTable(rows: set<EventId>, hist: set<EventId>, rows': set<EventId>, hist': set<EventId>, gone: set<EventId>)
    requires rows' !! gone && rows' + gone == rows + (hist' - hist) && gone <= rows
    ensures gone == rows - rows'
  {
    forall e | e in rows && e !in rows'
      ensures e in gone
    {
      assert e in rows' + gone;
    }
  }

  lemma NothingLeft(all: set<EventId>, gone: set<EventId>)
    requires gone <= all
    ensures all - gone == {} ==> gone == all
  {
    forall e | e in all && e !in gone
      ensures e in all - gone
    {
    }
  }

  /** The removed rows are those that left the table; all that were rotatable, when nothing is any more. */
  lemma RotationEnds(start: State, s: State, deliveredBefore: Time, terminalBefore: Time, tally: Tally, gone: map<EventId, Row>, k: nat)
    requires RotationFits(start, s, deliveredBefore, terminalBefore, tally, gone, k) && start.rows.Keys <= start.hist.Keys
    ensures gone.Keys == start.rows.Keys - s.rows.Keys
    ensures var rotatable := |RotatableSet(start.rows, deliveredBefore, terminalBefore)|;
            |gone.Keys| == if rotatable < 100 * k then rotatable else 100 * k
    ensures RotatableSet(s.rows, deliveredBefore, terminalBefore) == {} ==> gone.Keys == RotatableSet(start.rows, deliveredBefore, terminalBefore)
  {
    LeftTheTable(start.rows.Keys, start.hist.Keys, s.rows.Keys, s.hist.Keys, gone.Keys);
    NothingLeft(RotatableSet(start.rows, deliveredBefore, terminalBefore), gone.Keys);
  }

  lemma OnlyInsertsJoin(s: State, s': State, s'': State)
    requires OnlyInserts(s, s') && OnlyInserts(s', s'') && s.rows.Keys <= s.hist.Keys
    ensures OnlyInserts(s, s'')
  {
  }
}
