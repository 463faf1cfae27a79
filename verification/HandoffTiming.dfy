/** When sessions are claimed, closed and timed out: the times in the rows, and what a sweep owes to the clock. */
module HandoffTiming {
  import opened Wrappers
  import opened Handoff
  import opened HandoffSafety

  /** A session is claimed after it was queued and closed after that, none of it in the future, and it times
      out only when nobody has picked it up within the timeout. */
  predicate TimesFit(row: Session, now: nat) {
    && row.createdAt <= now
    && (row.claimedAt.Some? ==> row.createdAt <= row.claimedAt.value <= now)
    && (row.closedAt.Some? ==> row.createdAt <= row.closedAt.value <= now)
    && (row.claimedAt.Some? && row.closedAt.Some? ==> row.claimedAt.value <= row.closedAt.value)
    && (row.status == TimedOut ==> row.closedAt.Some? && row.createdAt + PICKUP_TIMEOUT < row.closedAt.value)
  }

  /** What a transaction is about to write fits, and what a sweep has yet to escalate is overdue. */
  predicate TxnFits(s: State, x: Txn) {
    && (forall sid <- x.sessions :: TimesFit(x.sessions[sid], s.now))
    && (x.stage.Sweeping? ==>
          forall sid <- x.stage.todo :: sid in s.sessions && s.sessions[sid].createdAt + PICKUP_TIMEOUT < s.now)
  }

  predicate Timed(s: State) {
    && (forall sid <- s.sessions :: TimesFit(s.sessions[sid], s.now))
    && (forall t <- s.txns :: TxnFits(s, s.txns[t]))
  }

  /** The rows of another transaction that are still to be escalated are left alone. */
  lemma OthersStayOverdue(s: State, s': State, y: Txn)
    requires TxnOk(s, y) && TxnFits(s, y) && s.now <= s'.now
    requires forall sid <- y.sessionLocks :: sid in s.sessions ==> sid in s'.sessions && s'.sessions[sid] == s.sessions[sid]
    ensures TxnFits(s', y)
  {
  }

  lemma CommitKeepsTimes(s: State, t: TxnId)
    requires Inv(s) && Timed(s) && Enabled(s, Commit(t))
    ensures Timed(Apply(s, Commit(t)))
  {
    var x := s.txns[t];
    var s' := Committed(s, x).(txns := s.txns - {t});
    assert TxnOk(s, x) && TxnFits(s, x);
    WritesAreLocked(s, x);
    forall u | u in s'.txns ensures TxnFits(s', s'.txns[u]) {
      assert TxnOk(s, s.txns[u]) && TxnFits(s, s.txns[u]) && Apart(s, x, s.txns[u]);
      OthersStayOverdue(s, s', s.txns[u]);
    }
  }

  lemma DeleteKeepsTimes(s: State, c: ConversationId)
    requires Inv(s) && Timed(s) && Enabled(s, DeleteConversation(c))
    ensures Timed(Deleted(s, c))
  {
    var s' := Deleted(s, c);
    forall u | u in s'.txns ensures TxnFits(s', s'.txns[u]) {
      assert TxnOk(s, s.txns[u]) && TxnFits(s, s.txns[u]);
      forall sid | sid in s.txns[u].sessionLocks && sid in s.sessions ensures sid in s'.sessions {
        assert SessionLocked(s, sid);
      }
      OthersStayOverdue(s, s', s.txns[u]);
    }
  }

  lemma BeginKeepsTimes(s: State, t: TxnId, x: Txn)
    requires Timed(s) && TxnFits(s, x)
    ensures Timed(Begin(s, t, x))
  {
  }

  lemma EscalatedFits(s: State, x: Txn, sid: SessionId)
    requires TxnFits(s, x) && x.stage.Sweeping? && sid in x.stage.todo && sid in s.sessions
    requires TimesFit(s.sessions[sid], s.now)
    ensures TxnFits(s, Escalated(s, x, sid))
  {
    var row := s.sessions[sid];
    assert TimesFit(ClosedAs(row, TimedOut, s.now), s.now);
    assert Escalated(s, x, sid).sessions
        == if row.status == Queued then x.sessions[sid := ClosedAs(row, TimedOut, s.now)] else x.sessions;
  }

  lemma EscalateKeepsTimes(s: State, t: TxnId, sid: SessionId)
    requires Timed(s) && Enabled(s, Escalate(t, sid))
    ensures Timed(Begin(s, t, Escalated(s, s.txns[t], sid)))
  {
    assert TxnFits(s, s.txns[t]);
    EscalatedFits(s, s.txns[t], sid);
    BeginKeepsTimes(s, t, Escalated(s, s.txns[t], sid));
  }

  lemma InsertKeepsTimes(s: State, t: TxnId, sid: SessionId)
    requires Timed(s) && Enabled(s, InsertSession(t, sid))
    ensures Timed(Apply(s, InsertSession(t, sid)))
  {
    assert TxnFits(s, s.txns[t]);
  }

  lemma ClosedFits(s: State, x: Txn)
    requires TxnOk(s, x) && x.stage.Resolving? && x.stage.s in s.sessions && TimesFit(s.sessions[x.stage.s], s.now)
    ensures TxnFits(s, ClosedTxn(s, x))
  {
  }

  lemma EndKeepsTimes(s: State, t: TxnId)
    requires Timed(s)
    ensures Timed(s.(txns := s.txns - {t}))
  {
  }

  lemma CloseKeepsTimes(s: State, t: TxnId)
    requires Inv(s) && Timed(s) && Enabled(s, CloseClaimed(t))
    ensures Timed(Apply(s, CloseClaimed(t)))
  {
    var x := s.txns[t];
    assert TxnOk(s, x);
    if x.stage.s in s.sessions && s.sessions[x.stage.s].status == Claimed {
      ClosedFits(s, x);
      BeginKeepsTimes(s, t, ClosedTxn(s, x));
    } else {
      EndKeepsTimes(s, t);
    }
  }

  lemma ClaimKeepsTimes(s: State, t: TxnId, sid: SessionId, who: StaffId)
    requires Inv(s) && Timed(s) && Enabled(s, Claim(t, sid, who))
    ensures Timed(Apply(s, Claim(t, sid, who)))
  {
    assert RowOk(s, sid);
  }

  lemma RestKeepsTimes(s: State, l: Label)
    requires Timed(s) && Enabled(s, l)
    requires l.SwallowFailure? || l.CheckAssignee? || l.ReleaseConversation? || l.SkipRelease? || l.BeginEnqueue?
             || l.BeginSweep? || l.Rollback?
    ensures Timed(Apply(s, l))
  {
  }

  lemma TablesKeepTimes(s: State, l: Label)
    requires Timed(s) && Enabled(s, l)
    requires l.Archive? || l.NewConversation? || l.CloseTicket? || l.ReopenTicket? || l.Tick?
    ensures Timed(Apply(s, l))
  {
  }

  lemma StepKeepsTimes(s: State, l: Label)
    requires Inv(s) && Timed(s) && Enabled(s, l)
    ensures Timed(Apply(s, l))
  {
    if l.Commit? { CommitKeepsTimes(s, l.t); }
    else if l.DeleteConversation? { DeleteKeepsTimes(s, l.c); }
    else if l.Escalate? { EscalateKeepsTimes(s, l.t, l.s); }
    else if l.InsertSession? { InsertKeepsTimes(s, l.t, l.s); }
    else if l.CloseClaimed? { CloseKeepsTimes(s, l.t); }
    else if l.Claim? { ClaimKeepsTimes(s, l.t, l.s, l.who); }
    else if l.Archive? || l.NewConversation? || l.CloseTicket? || l.ReopenTicket? || l.Tick? { TablesKeepTimes(s, l); }
    else { RestKeepsTimes(s, l); }
  }

  lemma {:induction false} RunKeepsTimes(s: State, run: seq<Label>)
    requires Inv(s) && Timed(s) && IsRun(s, run)
    ensures Timed(Final(s, run))
    decreases |run|
  {
    if run != [] {
      StepKeepsInv(s, run[0]);
      StepKeepsTimes(s, run[0]);
      RunKeepsTimes(Apply(s, run[0]), run[1..]);
    }
  }

  /** In every reachable state every session's times are in order, and one that has timed out was closed more
      than the timeout after it was queued. */
  lemma TimedOutAfterTimeout(s: State, sid: SessionId)
    requires Reachable(s) && sid in s.sessions
    ensures
      var row := s.sessions[sid];
      && row.createdAt <= s.now
      && (row.claimedAt.Some? ==> row.createdAt <= row.claimedAt.value <= s.now)
      && (row.closedAt.Some? ==> row.createdAt <= row.closedAt.value <= s.now)
      && (row.claimedAt.Some? && row.closedAt.Some? ==> row.claimedAt.value <= row.closedAt.value)
      && (row.status == TimedOut ==> row.closedAt.Some? && row.createdAt + 10 < row.closedAt.value)
  {
    var run :| IsRun(EMPTY, run) && Final(EMPTY, run) == s;
    RunKeepsTimes(EMPTY, run);
  }

  // ---- No overdue session is left ----

  /** The sweep still holds the session's row. */
  predicate Sweeps(s: State, t: TxnId, sid: SessionId) {
    t in s.txns && s.txns[t].stage.Sweeping? && sid in s.txns[t].sessionLocks
  }

  lemma StepKeepsSweeping(s: State, l: Label, t: TxnId, sid: SessionId)
    requires Sweeps(s, t, sid) && Enabled(s, l) && l != Commit(t) && l != Rollback(t)
    ensures Sweeps(Apply(s, l), t, sid)
  {
  }

  lemma {:induction false} RunKeepsSweeping(s: State, run: seq<Label>, t: TxnId, sid: SessionId)
    requires Sweeps(s, t, sid) && IsRun(s, run) && Commit(t) !in run && Rollback(t) !in run
    ensures Sweeps(Final(s, run), t, sid)
    decreases |run|
  {
    if run != [] {
      StepKeepsSweeping(s, run[0], t, sid);
      RunKeepsSweeping(Apply(s, run[0]), run[1..], t, sid);
    }
  }

  lemma SweepEndsInTimeout(s: State, t: TxnId, sid: SessionId)
    requires Inv(s) && Sweeps(s, t, sid) && Enabled(s, Commit(t))
    ensures
      var s' := Apply(s, Commit(t));
      sid in s'.sessions && s'.sessions[sid].status == TimedOut
  {
    var x := s.txns[t];
    assert TxnOk(s, x);
    assert sid in x.sessions && SweptRow(s, x, sid);
  }

  /** A sweep locks exactly the sessions that are queued for longer than the timeout and that nobody else has locked,
      and whatever happens meanwhile, its commit leaves every one of them timed out. */
  lemma SweepLeavesNoneQueued(s: State, t: TxnId, run: seq<Label>, sid: SessionId)
    requires Reachable(s) && Enabled(s, BeginSweep(t)) && sid in s.sessions
    requires IsRun(Apply(s, BeginSweep(t)), run) && Commit(t) !in run && Rollback(t) !in run
    requires Enabled(Final(Apply(s, BeginSweep(t)), run), Commit(t))
    ensures
      var overdue := s.sessions[sid].status == Queued && s.sessions[sid].createdAt + 10 < s.now && !SessionLocked(s, sid);
      && (sid in Apply(s, BeginSweep(t)).txns[t].sessionLocks <==> overdue)
      && var end := Apply(Final(Apply(s, BeginSweep(t)), run), Commit(t));
      overdue ==> sid in end.sessions && end.sessions[sid].status == TimedOut
  {
    var begun := Apply(s, BeginSweep(t));
    ReachableInv(s);
    StepKeepsInv(s, BeginSweep(t));
    RunKeepsInv(begun, run);
    if Sweeps(begun, t, sid) {
      RunKeepsSweeping(begun, run, t, sid);
      SweepEndsInTimeout(Final(begun, run), t, sid);
    }
  }
}
