/** The invariant of the outbox and its preservation by every step of a disciplined run. */
module OutboxInvariant {
  import opened Options
  import opened Deliveries
  import opened Outbox

  // ---------------------------------------------------------------------------------------------
  // The log of one event
  // ---------------------------------------------------------------------------------------------

  /** 0, 1, ..., n-1, each once. */
  function Prefix(n: nat): multiset<nat> {
    if n == 0 then multiset{} else Prefix(n - 1) + multiset{n - 1}
  }

  lemma {:induction false} PrefixCount(n: nat, i: nat)
    ensures Prefix(n)[i] == if i < n then 1 else 0
  {
    if n > 0 {
      PrefixCount(n - 1, i);
    }
  }

  function Indices(log: seq<Message>): (r: seq<nat>)
    ensures |r| == |log| && forall k :: 0 <= k < |r| ==> r[k] == log[k].index
  {
    seq(|log|, k requires 0 <= k < |log| => log[k].index)
  }

  predicate NonDecreasing(a: seq<nat>) {
    forall i, j :: 0 <= i < j < |a| ==> a[i] <= a[j]
  }

  /** The part whose acknowledgement the owner holds but has not recorded yet. */
  function InFlight(own: Option<Owner>): multiset<nat> {
    if own.Some? && own.value.phase.Accepted? then multiset{own.value.phase.index} else multiset{}
  }

  /**
   The log holds parts of one rendering, in order, none beyond the first unsent one: each recorded
   part once, and `extra` on top.
   */
  predicate LogFits(parts: seq<string>, sent: nat, log: seq<Message>, extra: multiset<nat>) {
    && (forall k :: 0 <= k < |log| ==>
          log[k].index < |parts| && log[k].index <= sent && log[k].text == parts[log[k].index])
    && NonDecreasing(Indices(log))
    && multiset(Indices(log)) == Prefix(sent) + extra
  }

  // ---------------------------------------------------------------------------------------------
  // One event
  // ---------------------------------------------------------------------------------------------

  predicate RowFits(row: Row, h: History) {
    && row.key == h.key
    && row.attempts == h.claims
    && row.splitCount == |row.parts|
    && row.sentParts <= |row.parts|
    && (row.sentParts > 0 ==> row.messageId.Some?)
    && (row.status.Delivered? ==> row.parts != [] && row.sentParts == |row.parts|)
    && (row.status.Delivered? <==> row.deliveredAt.Some?)
    && (row.nextRetryAt.Some? <==> row.status.Queued? || row.status.RetryScheduled?)
  }

  predicate CountsFit(cfg: Config, row: Row, h: History, owned: bool) {
    && h.claims == h.rescheduled + h.aborts + h.faults + (if owned then 1 else 0) + (if Terminal(row.status) then 1 else 0)
    && h.rescheduled <= cfg.maxAttempts - 1
  }

  predicate OwnerFits(cfg: Config, row: Row, o: Owner) {
    && row.status.Sending?
    && row.attempts == o.snap.attempts
    && match o.phase
       case Unrendered => row.parts == [] && o.snap.sentParts == row.sentParts
       case SendingFrom(parts, index) => parts == row.parts && parts != [] && index == row.sentParts
       case Accepted(parts, index, _) => parts == row.parts && index == row.sentParts && index < |parts|
       case Closing(goal) => goal.SendRetry? ==> o.snap.attempts < cfg.maxAttempts
  }

  predicate LocalInv(cfg: Config, l: Local) {
    && RowFits(l.row, l.hist)
    && LogFits(l.row.parts, l.row.sentParts, l.hist.accepted, l.hist.charged + InFlight(l.own))
    && CountsFit(cfg, l.row, l.hist, l.own.Some?)
    && (l.own.Some? ==> OwnerFits(cfg, l.row, l.own.value))
  }

  /** What no statement ever undoes: the event's identity, its parts, its progress, its final state. */
  predicate Evolves(r: Row, r': Row) {
    && r'.key == r.key
    && r'.createdAt == r.createdAt
    && r.attempts <= r'.attempts
    && r.sentParts <= r'.sentParts
    && (r.parts != [] ==> r'.parts == r.parts)
    && (Terminal(r.status) ==> r' == r)
  }

  lemma IndicesAppend(log: seq<Message>, m: Message)
    ensures Indices(log + [m]) == Indices(log) + [m.index]
  {
  }

  lemma LogAppend(parts: seq<string>, sent: nat, log: seq<Message>, extra: multiset<nat>)
    requires LogFits(parts, sent, log, extra) && sent < |parts|
    ensures LogFits(parts, sent, log + [Message(sent, parts[sent])], extra + multiset{sent})
  {
    IndicesAppend(log, Message(sent, parts[sent]));
  }

  lemma LogAdvance(parts: seq<string>, sent: nat, log: seq<Message>, extra: multiset<nat>)
    requires LogFits(parts, sent, log, extra + multiset{sent}) && sent < |parts|
    ensures LogFits(parts, sent + 1, log, extra)
  {
  }

  lemma LogEmpty(sent: nat, log: seq<Message>, extra: multiset<nat>, parts: seq<string>)
    requires LogFits([], sent, log, extra)
    ensures log == [] && LogFits(parts, sent, log, extra)
  {
    assert log == [] || log[0].index < 0;
  }

  /** What Telegram took but the row does not show: charged, or held by the owner. */
  function Extra(l: Local): multiset<nat> {
    l.hist.charged + InFlight(l.own)
  }

  lemma AckKeeps(cfg: Config, now: Time, l: Local, outcome: SendOutcome)
    requires LocalInv(cfg, l) && outcome.Ack?
    requires l.own.Some? && CanMove(l.own.value, now, Send(outcome))
    ensures LocalInv(cfg, SendEffect(cfg, now, l, outcome))
  {
    LogAppend(l.row.parts, l.row.sentParts, l.hist.accepted, Extra(l));
    assert Extra(SendEffect(cfg, now, l, outcome)) == Extra(l) + multiset{l.row.sentParts};
  }

  lemma ErrKeeps(cfg: Config, now: Time, l: Local, outcome: SendOutcome)
    requires LocalInv(cfg, l) && outcome.Err?
    requires l.own.Some? && CanMove(l.own.value, now, Send(outcome))
    ensures LocalInv(cfg, SendEffect(cfg, now, l, outcome))
  {
    var l' := SendEffect(cfg, now, l, outcome);
    if outcome.accepted {
      LogAppend(l.row.parts, l.row.sentParts, l.hist.accepted, Extra(l));
      assert Extra(l') == Extra(l) + multiset{l.row.sentParts};
    } else {
      assert Extra(l') == Extra(l);
    }
  }

  lemma SendKeeps(cfg: Config, now: Time, l: Local, outcome: SendOutcome)
    requires ValidConfig(cfg) && LocalInv(cfg, l)
    requires l.own.Some? && CanMove(l.own.value, now, Send(outcome))
    ensures LocalInv(cfg, SendEffect(cfg, now, l, outcome))
    ensures Evolves(l.row, SendEffect(cfg, now, l, outcome).row)
  {
    match outcome
    case Ack(_) => AckKeeps(cfg, now, l, outcome);
    case Err(_, _, _) => ErrKeeps(cfg, now, l, outcome);
  }

  lemma MarkChunkKeeps(cfg: Config, now: Time, l: Local, m: Move)
    requires ValidConfig(cfg) && LocalInv(cfg, l) && m.MarkChunk?
    requires l.own.Some? && CanMove(l.own.value, now, m)
    ensures LocalInv(cfg, MoveEffect(cfg, now, l, m))
    ensures Evolves(l.row, MoveEffect(cfg, now, l, m).row)
  {
    LogAdvance(l.row.parts, l.row.sentParts, l.hist.accepted, l.hist.charged);
    var l' := MoveEffect(cfg, now, l, m);
    assert l'.hist.charged + InFlight(l'.own) == l'.hist.charged;
    assert RowFits(l'.row, l'.hist);
    assert CountsFit(cfg, l'.row, l'.hist, true);
  }

  lemma MarkDeliveredKeeps(cfg: Config, now: Time, l: Local, m: Move)
    requires ValidConfig(cfg) && LocalInv(cfg, l) && m.MarkDelivered?
    requires l.own.Some? && CanMove(l.own.value, now, m)
    ensures LocalInv(cfg, MoveEffect(cfg, now, l, m))
    ensures Evolves(l.row, MoveEffect(cfg, now, l, m).row)
  {
  }

  lemma NothingInFlight(charged: multiset<nat>, own: Option<Owner>)
    requires own.Some? ==> own.value.phase.Closing?
    ensures charged + InFlight(own) == charged
  {
  }

  lemma CloseFailedKeeps(cfg: Config, l: Local, l': Local)
    requires LocalInv(cfg, l) && l.own.Some? && l.own.value.phase.Closing?
    requires l' == Local(l.row, l.hist.(faults := l.hist.faults + 1), None)
    ensures LocalInv(cfg, l')
  {
    NothingInFlight(l.hist.charged, l.own);
    NothingInFlight(l.hist.charged, None);
  }

  lemma CloseDoneKeeps(cfg: Config, l: Local, l': Local, goal: Goal, at: Time)
    requires ValidConfig(cfg) && LocalInv(cfg, l) && l.own.Some? && l.own.value.phase == Closing(goal)
    requires l' == Local(GoalRow(l.row, goal, at), GoalHistory(l.hist, goal), None)
    ensures LocalInv(cfg, l') && Evolves(l.row, l'.row)
  {
    NothingInFlight(l.hist.charged, l.own);
    NothingInFlight(l.hist.charged, None);
    assert l'.row.parts == l.row.parts && l'.row.sentParts == l.row.sentParts;
    assert l'.hist.accepted == l.hist.accepted && l'.hist.charged == l.hist.charged;
    assert RowFits(l'.row, l'.hist) && CountsFit(cfg, l'.row, l'.hist, false);
  }

  lemma CloseKeeps(cfg: Config, now: Time, l: Local, m: Move)
    requires ValidConfig(cfg) && LocalInv(cfg, l) && m.Close?
    requires l.own.Some? && CanMove(l.own.value, now, m)
    ensures LocalInv(cfg, MoveEffect(cfg, now, l, m))
    ensures Evolves(l.row, MoveEffect(cfg, now, l, m).row)
  {
    if m.ok {
      CloseDoneKeeps(cfg, l, MoveEffect(cfg, now, l, m), l.own.value.phase.goal, m.at);
    } else {
      CloseFailedKeeps(cfg, l, MoveEffect(cfg, now, l, m));
    }
  }

  lemma VanishKeeps(cfg: Config, now: Time, l: Local, m: Move)
    requires ValidConfig(cfg) && LocalInv(cfg, l) && m.Vanish?
    requires l.own.Some? && CanMove(l.own.value, now, m)
    ensures LocalInv(cfg, MoveEffect(cfg, now, l, m))
    ensures Evolves(l.row, MoveEffect(cfg, now, l, m).row)
  {
    var l' := MoveEffect(cfg, now, l, m);
    assert l'.hist.charged + InFlight(l'.own) == l.hist.charged + InFlight(l.own);
  }

  /** Every statement and call of an owner keeps the event's invariant and undoes nothing. */
  lemma MoveKeeps(cfg: Config, now: Time, l: Local, m: Move)
    requires ValidConfig(cfg) && LocalInv(cfg, l)
    requires l.own.Some? && CanMove(l.own.value, now, m)
    ensures LocalInv(cfg, MoveEffect(cfg, now, l, m))
    ensures Evolves(l.row, MoveEffect(cfg, now, l, m).row)
  {
    match m
    case RenderFailed =>
    case SaveParts(parts, _, _) => LogEmpty(l.row.sentParts, l.hist.accepted, l.hist.charged + InFlight(l.own), parts);
    case Send(outcome) => SendKeeps(cfg, now, l, outcome);
    case MarkChunk(_, _) => MarkChunkKeeps(cfg, now, l, m);
    case MarkDelivered(_, _, _) => MarkDeliveredKeeps(cfg, now, l, m);
    case Close(_, _) => CloseKeeps(cfg, now, l, m);
    case Vanish => VanishKeeps(cfg, now, l, m);
  }

  lemma ClaimKeeps(cfg: Config, l: Local, e: EventId, at: Time)
    requires LocalInv(cfg, l) && Claimable(l.row.status)
    ensures LocalInv(cfg, ClaimEffect(l, e, at))
    ensures Evolves(l.row, ClaimEffect(l, e, at).row)
  {
  }

  // ---------------------------------------------------------------------------------------------
  // The whole system
  // ---------------------------------------------------------------------------------------------

  /** A record that left the table was final, and past its retention when it left. */
  predicate GoneFits(cfg: Config, now: Time, h: History) {
    && h.gone.Some?
    && h.insertedAt <= h.gone.value.at
    && Terminal(h.gone.value.row.status)
    && h.gone.value.row.updatedAt + Retention(cfg, h.gone.value.row.status) <= h.gone.value.at <= now
    && LocalInv(cfg, Local(h.gone.value.row, h, None))
  }

  predicate EventFits(cfg: Config, s: State, e: EventId)
    requires e in s.hist
  {
    && s.hist[e].insertedAt <= s.now
    && if e in s.rows then s.hist[e].gone.None? && LocalInv(cfg, View(s, e)) else GoneFits(cfg, s.now, s.hist[e])
  }

  /** Owners and holders are the same pairs, so no event has two owners. */
  predicate HolderFits(s: State, e: EventId)
    requires e in s.holders
  {
    && e in s.rows
    && s.holders[e] in s.workers
    && s.workers[s.holders[e]].Owning?
    && s.workers[s.holders[e]].own.ev == e
  }

  predicate WorkerFits(s: State, w: WorkerId)
    requires w in s.workers
  {
    match s.workers[w]
    case Creating(ev, _) => ev in s.hist
    case Owning(o) => o.ev in s.holders && s.holders[o.ev] == w
  }

  predicate SelectedFits(cfg: Config, s: State, e: EventId) {
    && e in s.rows
    && Terminal(s.rows[e].status)
    && s.rows[e].updatedAt + Retention(cfg, s.rows[e].status) <= s.now
  }

  /** e left the table before e' was inserted. */
  predicate Precedes(hist: map<EventId, History>, e: EventId, e': EventId)
    requires e in hist && e' in hist
  {
    hist[e].gone.Some? && hist[e].gone.value.at <= hist[e'].insertedAt
  }

  predicate KeysFit(hist: map<EventId, History>) {
    forall e, e' {:trigger Precedes(hist, e, e')} :: e in hist && e' in hist && e != e' && hist[e].key == hist[e'].key ==>
      Precedes(hist, e, e') || Precedes(hist, e', e)
  }

  predicate EventsFit(cfg: Config, s: State) {
    s.rows.Keys <= s.hist.Keys && forall e {:trigger EventFits(cfg, s, e)} :: e in s.hist ==> EventFits(cfg, s, e)
  }

  predicate HoldersFit(s: State) {
    && (forall e :: e in s.holders ==> HolderFits(s, e))
    && (forall w :: w in s.workers ==> WorkerFits(s, w))
  }

  predicate SelectionFits(cfg: Config, s: State) {
    forall e {:trigger SelectedFits(cfg, s, e)} :: e in s.selected ==> SelectedFits(cfg, s, e)
  }

  predicate Inv(cfg: Config, s: State) {
    && EventsFit(cfg, s)
    && HoldersFit(s)
    && SelectionFits(cfg, s)
    && KeysFit(s.hist)
  }

  /** Rows stay, unless rotation removes them, and only evolve; what left the table stays away. */
  predicate TableEvolves(s: State, s': State) {
    && s.hist.Keys <= s'.hist.Keys
    && s.now <= s'.now
    && (forall e :: e in s.rows && e in s'.rows ==> Evolves(s.rows[e], s'.rows[e]))
    && (forall e :: e in s.hist && e !in s.rows ==> e !in s'.rows)
  }

  lemma InitInv(cfg: Config)
    ensures Inv(cfg, INIT)
  {
  }

  lemma EventFrame(cfg: Config, s: State, s': State, e: EventId)
    requires e in s.hist && e in s'.hist && EventFits(cfg, s, e)
    requires s'.hist[e] == s.hist[e] && s.now <= s'.now && (e in s.rows <==> e in s'.rows)
    requires e in s.rows ==> s'.rows[e] == s.rows[e] && OwnerOf(s', e) == OwnerOf(s, e)
    ensures EventFits(cfg, s', e)
  {
  }

  lemma InstallKeepsHolders(s: State, w: WorkerId, e: EventId, l: Local)
    requires HoldersFit(s) && e in s.rows && e in s.hist
    requires if e in s.holders then s.holders[e] == w else w !in s.workers
    requires l.own.Some? ==> l.own.value.ev == e
    ensures HoldersFit(Install(s, w, e, l))
    ensures OwnerOf(Install(s, w, e, l), e) == l.own
    ensures forall e' :: e' != e ==> OwnerOf(Install(s, w, e, l), e') == OwnerOf(s, e')
  {
    var s' := Install(s, w, e, l);
    forall e' | e' in s.holders && e' != e
      ensures s.holders[e'] != w
    {
      assert HolderFits(s, e');
    }
  }

  lemma InstallKeepsEvents(cfg: Config, s: State, w: WorkerId, e: EventId, l: Local)
    requires EventsFit(cfg, s) && e in s.rows && e in s.hist
    requires LocalInv(cfg, l)
    requires l.hist.insertedAt == s.hist[e].insertedAt && l.hist.gone.None?
    requires OwnerOf(Install(s, w, e, l), e) == l.own
    requires forall e' :: e' != e ==> OwnerOf(Install(s, w, e, l), e') == OwnerOf(s, e')
    ensures EventsFit(cfg, Install(s, w, e, l))
  {
    var s' := Install(s, w, e, l);
    assert EventFits(cfg, s', e) by {
      assert EventFits(cfg, s, e);
      assert View(s', e) == l;
    }
    forall e' | e' in s'.hist && e' != e
      ensures EventFits(cfg, s', e')
    {
      EventFrame(cfg, s, s', e');
    }
  }

  lemma KeysFrame(hist: map<EventId, History>, hist': map<EventId, History>)
    requires KeysFit(hist) && hist'.Keys == hist.Keys
    requires forall e :: e in hist ==>
               && hist'[e].key == hist[e].key
               && hist'[e].insertedAt == hist[e].insertedAt
               && (hist[e].gone.Some? ==> hist'[e].gone == hist[e].gone)
    ensures KeysFit(hist')
  {
    forall e, e' | e in hist' && e' in hist' && e != e' && hist'[e].key == hist'[e'].key
      ensures Precedes(hist', e, e') || Precedes(hist', e', e)
    {
      assert Precedes(hist, e, e') || Precedes(hist, e', e);
    }
  }

  lemma ReviseKeepsKeys(hist: map<EventId, History>, e: EventId, h: History)
    requires KeysFit(hist) && e in hist && hist[e].gone.None?
    requires h.key == hist[e].key && h.insertedAt == hist[e].insertedAt
    ensures KeysFit(hist[e := h])
  {
    KeysFrame(hist, hist[e := h]);
  }

  lemma InstallKeepsSelection(cfg: Config, s: State, w: WorkerId, e: EventId, l: Local)
    requires SelectionFits(cfg, s) && e in s.rows && !Terminal(s.rows[e].status)
    ensures SelectionFits(cfg, Install(s, w, e, l))
  {
    var s' := Install(s, w, e, l);
    forall e' | e' in s'.selected
      ensures SelectedFits(cfg, s', e')
    {
      assert SelectedFits(cfg, s, e');
    }
  }

  lemma InstallEvolves(s: State, w: WorkerId, e: EventId, l: Local)
    requires e in s.rows && e in s.hist && Evolves(s.rows[e], l.row)
    ensures TableEvolves(s, Install(s, w, e, l))
  {
  }

  /** The common shape of a claim and of an owner's moves: one row, one history, one worker change. */
  lemma InstallKeeps(cfg: Config, s: State, w: WorkerId, e: EventId, l: Local)
    requires Inv(cfg, s) && e in s.rows && e in s.hist
    requires !Terminal(s.rows[e].status)
    requires if e in s.holders then s.holders[e] == w else w !in s.workers
    requires LocalInv(cfg, l) && Evolves(s.rows[e], l.row)
    requires l.own.Some? ==> l.own.value.ev == e
    requires l.hist.key == s.hist[e].key && l.hist.insertedAt == s.hist[e].insertedAt
    requires s.hist[e].gone.None? && l.hist.gone.None?
    ensures Inv(cfg, Install(s, w, e, l)) && TableEvolves(s, Install(s, w, e, l))
  {
    InstallKeepsHolders(s, w, e, l);
    InstallKeepsEvents(cfg, s, w, e, l);
    ReviseKeepsKeys(s.hist, e, l.hist);
    InstallKeepsSelection(cfg, s, w, e, l);
    InstallEvolves(s, w, e, l);
  }

  lemma ClaimStep(cfg: Config, s: State, a: Action)
    requires Inv(cfg, s) && a.Claim? && Enabled(cfg, s, a)
    ensures Inv(cfg, Effect(cfg, s, a)) && TableEvolves(s, Effect(cfg, s, a))
  {
    assert EventFits(cfg, s, a.e);
    assert a.e !in s.holders;
    ClaimKeeps(cfg, View(s, a.e), a.e, a.at);
    InstallKeeps(cfg, s, a.w, a.e, ClaimEffect(View(s, a.e), a.e, a.at));
  }

  lemma MoveKeepsIdentity(cfg: Config, now: Time, l: Local, m: Move)
    requires l.own.Some? && CanMove(l.own.value, now, m)
    ensures var l' := MoveEffect(cfg, now, l, m);
            && l'.hist.key == l.hist.key
            && l'.hist.insertedAt == l.hist.insertedAt
            && l'.hist.gone == l.hist.gone
            && (l'.own.Some? ==> l'.own.value.ev == l.own.value.ev)
  {
  }

  lemma DismissKeepsHolders(s: State, w: WorkerId)
    requires HoldersFit(s) && w in s.workers && s.workers[w].Creating?
    ensures HoldersFit(s.(workers := s.workers - {w}))
    ensures forall e :: OwnerOf(s.(workers := s.workers - {w}), e) == OwnerOf(s, e)
  {
  }

  lemma EventsFrame(cfg: Config, s: State, s': State)
    requires EventsFit(cfg, s)
    requires s'.hist == s.hist && s'.rows == s.rows && s.now <= s'.now
    requires forall e :: e in s.rows ==> OwnerOf(s', e) == OwnerOf(s, e)
    ensures EventsFit(cfg, s') && TableEvolves(s, s')
  {
    forall e | e in s'.hist
      ensures EventFits(cfg, s', e)
    {
      EventFrame(cfg, s, s', e);
    }
  }

  lemma SelectionFrame(cfg: Config, s: State, s': State)
    requires SelectionFits(cfg, s) && s'.selected <= s.selected && s.now <= s'.now
    requires forall e :: e in s'.selected && e in s.rows ==> e in s'.rows && s'.rows[e] == s.rows[e]
    ensures SelectionFits(cfg, s')
  {
    forall e | e in s'.selected
      ensures SelectedFits(cfg, s', e)
    {
      assert SelectedFits(cfg, s, e);
    }
  }

  /** A handler that created a row leaves. */
  lemma DismissKeeps(cfg: Config, s: State, w: WorkerId)
    requires Inv(cfg, s) && w in s.workers && s.workers[w].Creating?
    ensures Inv(cfg, s.(workers := s.workers - {w}))
    ensures TableEvolves(s, s.(workers := s.workers - {w}))
  {
    var s' := s.(workers := s.workers - {w});
    DismissKeepsHolders(s, w);
    EventsFrame(cfg, s, s');
    SelectionFrame(cfg, s, s');
  }

  lemma ActStep(cfg: Config, s: State, a: Action)
    requires ValidConfig(cfg) && Inv(cfg, s) && a.Act? && Enabled(cfg, s, a)
    ensures Inv(cfg, Effect(cfg, s, a)) && TableEvolves(s, Effect(cfg, s, a))
  {
    assert WorkerFits(s, a.w);
    if s.workers[a.w].Owning? {
      var o := s.workers[a.w].own;
      assert EventFits(cfg, s, o.ev);
      var l := View(s, o.ev);
      assert l == Local(s.rows[o.ev], s.hist[o.ev], Some(o));
      MoveKeeps(cfg, s.now, l, a.move);
      MoveKeepsIdentity(cfg, s.now, l, a.move);
      InstallKeeps(cfg, s, a.w, o.ev, MoveEffect(cfg, s.now, l, a.move));
    } else {
      DismissKeeps(cfg, s, a.w);
    }
  }

  lemma CreateKeepsHolders(cfg: Config, s: State, a: Action)
    requires HoldersFit(s) && a.Create? && Enabled(cfg, s, a)
    ensures HoldersFit(Effect(cfg, s, a))
    ensures OwnerOf(Effect(cfg, s, a), a.e) == None
    ensures forall e :: e in s.rows ==> OwnerOf(Effect(cfg, s, a), e) == OwnerOf(s, e)
  {
  }

  lemma FreshFits(cfg: Config, row: Row, h: History)
    requires ValidConfig(cfg)
    requires row == NewRow(h.key, row.createdAt)
    requires h == History(h.key, h.insertedAt, [], multiset{}, 0, 0, 0, 0, None)
    ensures LocalInv(cfg, Local(row, h, None))
  {
  }

  lemma NewEventFits(cfg: Config, s: State, e: EventId)
    requires ValidConfig(cfg) && e in s.rows && e in s.hist && OwnerOf(s, e) == None
    requires s.rows[e] == NewRow(s.hist[e].key, s.rows[e].createdAt)
    requires s.hist[e] == History(s.hist[e].key, s.now, [], multiset{}, 0, 0, 0, 0, None)
    ensures EventFits(cfg, s, e)
  {
    FreshFits(cfg, s.rows[e], s.hist[e]);
  }

  predicate Inserted(s: State, s': State, e: EventId, row: Row, h: History) {
    s'.rows == s.rows[e := row] && s'.hist == s.hist[e := h] && s'.now == s.now
  }

  lemma OldEventFits(cfg: Config, s: State, s': State, e: EventId, row: Row, h: History, e': EventId)
    requires Inserted(s, s', e, row, h) && e' != e && e' in s.hist && EventFits(cfg, s, e')
    requires e' in s.rows ==> OwnerOf(s', e') == OwnerOf(s, e')
    ensures EventFits(cfg, s', e')
  {
    EventFrame(cfg, s, s', e');
  }

  lemma InsertEvolves(s: State, s': State, e: EventId, row: Row, h: History)
    requires Inserted(s, s', e, row, h) && e !in s.hist && s.rows.Keys <= s.hist.Keys
    ensures TableEvolves(s, s') && s'.rows.Keys <= s'.hist.Keys
  {
  }

  lemma CreateKeepsEvents(cfg: Config, s: State, s': State, e: EventId, row: Row, h: History)
    requires ValidConfig(cfg) && EventsFit(cfg, s) && e !in s.hist && Inserted(s, s', e, row, h)
    requires row == NewRow(h.key, row.createdAt) && h == History(h.key, s.now, [], multiset{}, 0, 0, 0, 0, None)
    requires OwnerOf(s', e) == None && forall e' :: e' in s.rows ==> OwnerOf(s', e') == OwnerOf(s, e')
    ensures EventsFit(cfg, s') && TableEvolves(s, s')
  {
    InsertEvolves(s, s', e, row, h);
    NewEventFits(cfg, s', e);
    forall e' | e' in s'.hist && e' != e
      ensures EventFits(cfg, s', e')
    {
      OldEventFits(cfg, s, s', e, row, h, e');
    }
  }

  /** UNIQUE(idempotency_key): an older event with the same key has already left the table. */
  lemma CreateKeepsKeys(cfg: Config, s: State, a: Action)
    requires EventsFit(cfg, s) && KeysFit(s.hist) && a.Create? && Enabled(cfg, s, a)
    ensures KeysFit(Effect(cfg, s, a).hist)
  {
    var hist' := Effect(cfg, s, a).hist;
    forall e | e in s.hist && s.hist[e].key == a.key
      ensures Precedes(hist', e, a.e)
    {
      assert EventFits(cfg, s, e);
    }
    forall e, e' | e in hist' && e' in hist' && e != e' && hist'[e].key == hist'[e'].key
      ensures Precedes(hist', e, e') || Precedes(hist', e', e)
    {
      if e != a.e && e' != a.e {
        assert Precedes(s.hist, e, e') || Precedes(s.hist, e', e);
      }
    }
  }

  lemma CreateStep(cfg: Config, s: State, a: Action)
    requires ValidConfig(cfg) && Inv(cfg, s) && a.Create? && Enabled(cfg, s, a)
    ensures Inv(cfg, Effect(cfg, s, a)) && TableEvolves(s, Effect(cfg, s, a))
  {
    CreateKeepsHolders(cfg, s, a);
    CreateKeepsEvents(cfg, s, Effect(cfg, s, a), a.e, NewRow(a.key, a.at), History(a.key, s.now, [], multiset{}, 0, 0, 0, 0, None));
    SelectionFrame(cfg, s, Effect(cfg, s, a));
    CreateKeepsKeys(cfg, s, a);
  }

  lemma OwnedIffHeld(s: State, e: EventId)
    requires HoldersFit(s)
    ensures Owned(s, e) <==> e in s.holders
    ensures Owned(s, e) <==> OwnerOf(s, e).Some?
  {
  }

  lemma QueuedFits(cfg: Config, l: Local, retryAt: Time, now: Time)
    requires LocalInv(cfg, l) && l.own.None? && !Terminal(l.row.status)
    ensures LocalInv(cfg, l.(row := QueuedRow(l.row, retryAt, now)))
  {
  }

  lemma RowsStepKeepsHolders(s: State, s': State)
    requires HoldersFit(s) && s'.workers == s.workers && s'.holders == s.holders
    requires s.hist.Keys <= s'.hist.Keys
    requires forall e :: e in s.holders && e in s.rows ==> e in s'.rows
    ensures HoldersFit(s') && forall e :: OwnerOf(s', e) == OwnerOf(s, e)
  {
  }

  /** MarkQueued on one row, or RequeueSending on many: nobody owns them and none is final. */
  predicate Requeues(s: State, s': State) {
    && s'.hist == s.hist && s'.workers == s.workers && s'.holders == s.holders
    && s'.selected == s.selected && s'.now == s.now
    && s'.rows.Keys == s.rows.Keys
    && (forall e :: e in s.rows && s'.rows[e] != s.rows[e] ==>
          && e !in s.holders
          && !Terminal(s.rows[e].status)
          && s'.rows[e].nextRetryAt.Some?
          && s'.rows[e] == QueuedRow(s.rows[e], s'.rows[e].nextRetryAt.value, s.now))
  }

  lemma RequeueKeepsEvents(cfg: Config, s: State, s': State)
    requires EventsFit(cfg, s) && Requeues(s, s')
    ensures EventsFit(cfg, s')
  {
    forall e | e in s'.hist
      ensures EventFits(cfg, s', e)
    {
      if e in s.rows && s'.rows[e] != s.rows[e] {
        assert EventFits(cfg, s, e);
        QueuedFits(cfg, View(s, e), s'.rows[e].nextRetryAt.value, s.now);
      } else {
        EventFrame(cfg, s, s', e);
      }
    }
  }

  lemma RequeueKeepsSelection(cfg: Config, s: State, s': State)
    requires SelectionFits(cfg, s) && Requeues(s, s')
    ensures SelectionFits(cfg, s')
  {
    forall e | e in s'.selected
      ensures SelectedFits(cfg, s', e)
    {
      assert SelectedFits(cfg, s, e);
    }
  }

  lemma RequeueKeeps(cfg: Config, s: State, s': State)
    requires Inv(cfg, s) && Requeues(s, s')
    ensures Inv(cfg, s') && TableEvolves(s, s')
  {
    RowsStepKeepsHolders(s, s');
    RequeueKeepsEvents(cfg, s, s');
    RequeueKeepsSelection(cfg, s, s');
  }

  lemma MarkQueuedStep(cfg: Config, s: State, a: Action)
    requires Inv(cfg, s) && a.MarkQueued? && Enabled(cfg, s, a) && Gate(s, a)
    ensures Inv(cfg, Effect(cfg, s, a)) && TableEvolves(s, Effect(cfg, s, a))
  {
    var c := s.workers[a.w];
    DismissKeeps(cfg, s, a.w);
    var s1 := s.(workers := s.workers - {a.w});
    if a.ok && c.ev in s.rows {
      assert !Owned(s1, c.ev);
      OwnedIffHeld(s1, c.ev);
      RequeueKeeps(cfg, s1, Effect(cfg, s, a));
    }
  }

  lemma SelectStep(cfg: Config, s: State, a: Action)
    requires Inv(cfg, s) && a.Select? && Enabled(cfg, s, a)
    ensures Inv(cfg, Effect(cfg, s, a)) && TableEvolves(s, Effect(cfg, s, a))
  {
    var s' := Effect(cfg, s, a);
    EventsFrame(cfg, s, s');
    RowsStepKeepsHolders(s, s');
    forall e | e in s'.selected
      ensures SelectedFits(cfg, s', e)
    {
      assert e in RotatableSet(s.rows, a.deliveredBefore, a.terminalBefore);
    }
  }

  lemma BuriedFits(cfg: Config, s: State, s': State, e: EventId)
    requires e in s.hist && EventFits(cfg, s, e) && SelectedFits(cfg, s, e) && e !in s.holders
    requires e in s'.hist && e !in s'.rows && s'.hist[e] == Bury(s.hist[e], s.rows[e], s.now) && s'.now == s.now
    ensures EventFits(cfg, s', e)
  {
  }

  lemma DeleteKeepsEvents(cfg: Config, s: State, ids: set<EventId>, s': State)
    requires EventsFit(cfg, s)
    requires forall e :: e in ids ==> SelectedFits(cfg, s, e) && e !in s.holders
    requires s'.rows == s.rows - ids && s'.hist.Keys == s.hist.Keys && s'.now == s.now
    requires s'.holders == s.holders && s'.workers == s.workers
    requires forall e :: e in s.hist ==> s'.hist[e] == if e in ids && e in s.rows then Bury(s.hist[e], s.rows[e], s.now) else s.hist[e]
    ensures EventsFit(cfg, s')
  {
    forall e | e in s'.hist
      ensures EventFits(cfg, s', e)
    {
      if e in ids {
        assert SelectedFits(cfg, s, e) && EventFits(cfg, s, e);
        BuriedFits(cfg, s, s', e);
      } else {
        EventFrame(cfg, s, s', e);
      }
    }
  }

  lemma DeleteKeepsKeys(cfg: Config, s: State, ids: set<EventId>, hist': map<EventId, History>)
    requires EventsFit(cfg, s) && KeysFit(s.hist) && hist'.Keys == s.hist.Keys
    requires forall e :: e in s.hist ==> hist'[e] == if e in ids && e in s.rows then Bury(s.hist[e], s.rows[e], s.now) else s.hist[e]
    ensures KeysFit(hist')
  {
    forall e | e in s.hist
      ensures s.hist[e].gone.Some? ==> hist'[e].gone == s.hist[e].gone
    {
      assert EventFits(cfg, s, e);
    }
    KeysFrame(s.hist, hist');
  }

  lemma DeleteStep(cfg: Config, s: State, a: Action)
    requires Inv(cfg, s) && a.Delete? && Enabled(cfg, s, a)
    ensures Inv(cfg, Effect(cfg, s, a)) && TableEvolves(s, Effect(cfg, s, a))
  {
    var s' := Effect(cfg, s, a);
    forall e | e in a.ids
      ensures SelectedFits(cfg, s, e) && e !in s.holders
    {
      assert SelectedFits(cfg, s, e) && EventFits(cfg, s, e);
      OwnedIffHeld(s, e);
    }
    RowsStepKeepsHolders(s, s');
    DeleteKeepsEvents(cfg, s, a.ids, s');
    SelectionFrame(cfg, s, s');
    DeleteKeepsKeys(cfg, s, a.ids, s'.hist);
  }

  lemma RestartStep(cfg: Config, s: State, a: Action)
    requires Inv(cfg, s) && a.Restart? && Enabled(cfg, s, a)
    ensures Inv(cfg, Effect(cfg, s, a)) && TableEvolves(s, Effect(cfg, s, a))
  {
    assert s.holders.Keys == {};
    RequeueKeeps(cfg, s, Effect(cfg, s, a));
  }

  lemma IdleStep(cfg: Config, s: State, a: Action)
    requires Inv(cfg, s) && (a.Drop? || a.Tick? || a.Crash?) && Enabled(cfg, s, a)
    ensures Inv(cfg, Effect(cfg, s, a)) && TableEvolves(s, Effect(cfg, s, a))
  {
    var s' := Effect(cfg, s, a);
    EventsFrame(cfg, s, s');
    RowsStepKeepsHolders(s, s');
    SelectionFrame(cfg, s, s');
  }

  /** Every step keeps the invariant, provided MarkQueued does not hit a row that is owned or final. */
  lemma StepKeeps(cfg: Config, s: State, a: Action)
    requires ValidConfig(cfg) && Inv(cfg, s) && Gate(s, a)
    ensures Inv(cfg, Step(cfg, s, a)) && TableEvolves(s, Step(cfg, s, a))
  {
    if Enabled(cfg, s, a) {
      match a
      case Create(_, _, _, _) => CreateStep(cfg, s, a);
      case MarkQueued(_, _) => MarkQueuedStep(cfg, s, a);
      case Claim(_, _, _) => ClaimStep(cfg, s, a);
      case Act(_, _) => ActStep(cfg, s, a);
      case Select(_, _, _) => SelectStep(cfg, s, a);
      case Delete(_) => DeleteStep(cfg, s, a);
      case Restart => RestartStep(cfg, s, a);
      case _ => IdleStep(cfg, s, a);
    }
  }

  lemma EvolvesTransitive(cfg: Config, s: State, s': State, s'': State)
    requires s.rows.Keys <= s.hist.Keys
    requires TableEvolves(s, s') && TableEvolves(s', s'')
    ensures TableEvolves(s, s'')
  {
  }

  lemma {:induction false} RunKeeps(cfg: Config, s: State, acts: seq<Action>)
    requires ValidConfig(cfg) && Inv(cfg, s) && Disciplined(cfg, s, acts)
    ensures Inv(cfg, After(cfg, s, acts)) && TableEvolves(s, After(cfg, s, acts))
    decreases |acts|
  {
    if acts != [] {
      var s' := Step(cfg, s, acts[0]);
      StepKeeps(cfg, s, acts[0]);
      RunKeeps(cfg, s', acts[1..]);
      EvolvesTransitive(cfg, s, s', After(cfg, s', acts[1..]));
    }
  }
}
