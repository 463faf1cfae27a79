/** What the handoff protocol does not promise: writes that are skipped and failures that are swallowed,
    with the exact conditions. */
module HandoffFaults {
  import opened Wrappers
  import opened Handoff
  import opened HandoffSafety

  // ---- A status write that is skipped ----

  /** The invariant survives a skipped status write exactly when nobody is about to transfer the
      conversation, counting on the session that is being closed. */
  lemma SkipKeepsInvIff(s: State, t: TxnId)
    requires Inv(s) && Enabled(s, SkipRelease(t))
    ensures Inv(Apply(s, SkipRelease(t))) <==> SafeSkip(s, SkipRelease(t))
  {
    var s' := Apply(s, SkipRelease(t));
    if SafeSkip(s, SkipRelease(t)) {
      SkipKeepsInv(s, t);
    } else {
      var u :| u in s.txns && Relied(s, t, u);
      assert TxnOk(s, s.txns[t]);
      assert SilentOn(s', s'.txns[t], ClosedIn(s, s.txns[t]));
      assert !Apart(s', s'.txns[u], s'.txns[t]);
    }
  }

  /** The write is skipped in one case only: a closed conversation is to be closed again. */
  lemma OnlyClosingAgainIsSkipped(s: State, t: TxnId)
    requires Inv(s) && Enabled(s, SkipRelease(t))
    ensures s.conversations[ClosedIn(s, s.txns[t])] == Closed && s.txns[t].stage.next == Closed
  {
    assert TxnOk(s, s.txns[t]) && RowOk(s, s.txns[t].stage.s);
  }

  /** The conversation is transferred and no session of it is open. */
  predicate Lost(s: State, c: ConversationId) {
    c in s.conversations && s.conversations[c] == Transferred && !HasOpen(s.sessions, c)
  }

  lemma OneCommit(s: State, t: TxnId)
    requires t in s.txns && CanCommit(s.txns[t])
    ensures IsRun(s, [Commit(t)]) && Final(s, [Commit(t)]) == Committed(s, s.txns[t]).(txns := s.txns - {t})
  {
    var s1 := Apply(s, Commit(t));
    assert [Commit(t)][1..] == [] && IsRun(s1, []) && Final(s1, []) == s1;
  }

  lemma TwoCommits(s: State, t: TxnId, u: TxnId)
    requires t in s.txns && u in s.txns && t != u && CanCommit(s.txns[t]) && CanCommit(s.txns[u])
    ensures IsRun(s, [Commit(t), Commit(u)])
    ensures Final(s, [Commit(t), Commit(u)]) ==
      Committed(Committed(s, s.txns[t]), s.txns[u]).(txns := s.txns - {t} - {u})
  {
    var s1 := Apply(s, Commit(t));
    var s2 := Apply(s1, Commit(u));
    assert [Commit(t), Commit(u)][1..] == [Commit(u)] && [Commit(u)][1..] == [];
    assert IsRun(s2, []) && Final(s2, []) == s2;
    assert IsRun(s1, [Commit(u)]) && Final(s1, [Commit(u)]) == s2;
  }

  /** Committing a skipped close and then the enqueue that counted on the session. */
  lemma BothCommittedIsLost(s: State, x: Txn, y: Txn, c: ConversationId)
    requires OneOpenEach(s.sessions) && TxnOk(s, x) && TxnOk(s, y)
    requires x.stage.Unassigned? && ClosedIn(s, x) == c && y.stage == Enqueued(c)
    ensures Lost(Committed(Committed(s, Skipped(x)), y), c)
  {
    var sid := x.stage.s;
    assert IsOpenIn(s.sessions, sid, c);
    assert s.sessions + x.sessions + y.sessions == s.sessions[sid := x.sessions[sid]];
  }

  /** Whoever skips the write while another transaction counts on the session, loses the conversation: once
      both have committed it is transferred and no session of it is open. */
  lemma SkippedThenCommitted(s: State, t: TxnId, u: TxnId)
    requires Inv(s) && Enabled(s, SkipRelease(t)) && Relied(s, t, u)
    ensures
      var skipped := Apply(s, SkipRelease(t));
      && IsRun(skipped, [Commit(t), Commit(u)])
      && Lost(Final(skipped, [Commit(t), Commit(u)]), ClosedIn(s, s.txns[t]))
  {
    assert TxnOk(s, s.txns[t]) && TxnOk(s, s.txns[u]);
    BothCommittedIsLost(s, s.txns[t], s.txns[u], ClosedIn(s, s.txns[t]));
    TwoCommits(Apply(s, SkipRelease(t)), t, u);
  }

  /** Every later state of every run serves its transferred conversations. */
  ghost predicate AlwaysServes(s: State) {
    forall run :: IsRun(s, run) ==> TransferredIsServed(Final(s, run))
  }

  lemma InvAlwaysServes(s: State)
    requires Inv(s)
    ensures AlwaysServes(s)
  {
    forall run | IsRun(s, run) ensures TransferredIsServed(Final(s, run)) {
      RunKeepsInv(s, run);
    }
  }

  lemma LostIsUnserved(s: State, run: seq<Label>, c: ConversationId)
    requires IsRun(s, run) && Lost(Final(s, run), c)
    ensures !AlwaysServes(s)
  {
    assert !TransferredIsServed(Final(s, run));
  }

  /** So the skipped write is safe in what it leads to exactly when nobody counts on the session: then every
      later state of every run serves its transferred conversations, and otherwise two commits end that. */
  lemma SkippedWriteIsSafeIff(s: State, t: TxnId)
    requires Inv(s) && Enabled(s, SkipRelease(t))
    ensures AlwaysServes(Apply(s, SkipRelease(t))) <==> SafeSkip(s, SkipRelease(t))
  {
    if SafeSkip(s, SkipRelease(t)) {
      SkipKeepsInv(s, t);
      InvAlwaysServes(Apply(s, SkipRelease(t)));
    } else {
      var u :| u in s.txns && Relied(s, t, u);
      SkippedThenCommitted(s, t, u);
      LostIsUnserved(Apply(s, SkipRelease(t)), [Commit(t), Commit(u)], ClosedIn(s, s.txns[t]));
    }
  }

  // ---- The guard a caller can check ----

  /** Transaction `t` is about to give a conversation that has status `was` the status `next`. */
  predicate AboutToWrite(s: State, t: TxnId, was: ConversationStatus, next: ConversationStatus) {
    && t in s.txns && s.txns[t].stage.Unassigned? && s.txns[t].stage.s in s.sessions
    && s.txns[t].stage.next == next
    && ClosedIn(s, s.txns[t]) in s.conversations && s.conversations[ClosedIn(s, s.txns[t])] == was
    && Enabled(s, StatusWrite(s, t))
  }

  ghost predicate AlwaysSafe(was: ConversationStatus, next: ConversationStatus) {
    forall s, t :: Inv(s) && AboutToWrite(s, t, was, next) ==> Inv(Apply(s, StatusWrite(s, t)))
  }

  /** Knowing only the status a conversation has and the one it is to get, a caller may write it safely in
      every state exactly when it is not a closed conversation being closed again. */
  lemma StatusWriteIsSafeIff(was: ConversationStatus, next: ConversationStatus)
    ensures AlwaysSafe(was, next) <==> !(was == Closed && next == Closed)
  {
    if was == Closed && next == Closed {
      ClosingAgainRaces();
      SkipKeepsInvIff(RACED, 2);
      assert Relied(RACED, 2, 1);
      assert AboutToWrite(RACED, 2, was, next);
    } else {
      forall s, t | Inv(s) && AboutToWrite(s, t, was, next) ensures Inv(Apply(s, StatusWrite(s, t))) {
        WriteKeepsInv(s, t, was, next);
      }
    }
  }

  lemma WriteKeepsInv(s: State, t: TxnId, was: ConversationStatus, next: ConversationStatus)
    requires Inv(s) && AboutToWrite(s, t, was, next) && !(was == Closed && next == Closed)
    ensures Inv(Apply(s, StatusWrite(s, t)))
  {
    assert TxnOk(s, s.txns[t]) && RowOk(s, s.txns[t].stage.s);
    assert !Enabled(s, SkipRelease(t));
    ReleaseKeepsInv(s, t);
  }

  // ---- The run ----

  ghost predicate Leads(s: State, s': State) {
    exists run :: LeadsBy(s, run, s')
  }

  predicate LeadsBy(s: State, run: seq<Label>, s': State) {
    IsRun(s, run) && Final(s, run) == s'
  }

  lemma {:induction false} RunThenStep(s: State, run: seq<Label>, l: Label)
    requires IsRun(s, run) && Enabled(Final(s, run), l) && Guarded(Final(s, run), l)
    ensures IsRun(s, run + [l]) && Final(s, run + [l]) == Apply(Final(s, run), l)
    decreases |run|
  {
    if run == [] {
      assert [l][1..] == [];
    } else {
      RunThenStep(Apply(s, run[0]), run[1..], l);
      assert (run + [l])[1..] == run[1..] + [l];
    }
  }

  lemma Start(s: State)
    ensures Leads(s, s)
  {
    assert LeadsBy(s, [], s);
  }

  lemma Onward(s: State, s1: State, l: Label) returns (s2: State)
    requires Leads(s, s1) && Enabled(s1, l) && Guarded(s1, l)
    ensures s2 == Apply(s1, l) && Leads(s, s2)
  {
    s2 := Apply(s1, l);
    var run :| LeadsBy(s, run, s1);
    RunThenStep(s, run, l);
    assert LeadsBy(s, run + [l], s2);
  }

  const QUEUED := NewSession(0, 0)
  const CLAIMED := ClaimedBy(QUEUED, 7, 0)

  /** A claimed session whose customer has archived the conversation. */
  const ARCHIVED := State(0, map[5 := CLAIMED], map[0 := Closed], multiset{}, map[], {5}, map[])

  /** The customer has written again and the handoff turn counts on the claimed session, while its assignee
      resolves the session and closes the conversation. */
  const RACED := ARCHIVED.(
    issued := {5, 6},
    txns := map[1 := Txn(Enqueued(0), {}, {0}, map[], map[0 := Transferred], multiset{}, map[]),
                2 := Txn(Unassigned(5, Closed), {5}, {}, map[5 := ClosedAs(CLAIMED, Resolved, 0)], map[], multiset{}, map[])])

  const TAKEN := ARCHIVED.(sessions := map[5 := QUEUED], conversations := map[0 := Transferred])

  const ENQUEUED := EMPTY.(
    conversations := map[0 := Active], issued := {5},
    txns := map[0 := Txn(Enqueued(0), {5}, {0}, map[5 := QUEUED], map[0 := Transferred], multiset{}, map[])])

  lemma CustomerEnqueues()
    ensures Leads(EMPTY, ENQUEUED)
  {
    Start(EMPTY);
    var s := Onward(EMPTY, EMPTY, NewConversation(0));
    s := Onward(EMPTY, s, BeginEnqueue(0, 0));
    s := Onward(EMPTY, s, InsertSession(0, 5));
    assert s.issued == {5} && s.txns == ENQUEUED.txns;
  }

  lemma CustomerWaits()
    ensures Leads(EMPTY, TAKEN)
  {
    CustomerEnqueues();
    var s := Onward(EMPTY, ENQUEUED, Commit(0));
    assert s.sessions == TAKEN.sessions && s.conversations == TAKEN.conversations && s.txns == map[];
    assert s.escalations == multiset{} && s.tickets == map[];
  }

  lemma StaffClaims()
    ensures Leads(EMPTY, ARCHIVED)
  {
    CustomerWaits();
    var s := Onward(EMPTY, TAKEN, Claim(0, 5, 7));
    s := Onward(EMPTY, s, Commit(0));
    assert s.sessions == ARCHIVED.sessions && s.txns == map[];
    s := Onward(EMPTY, s, Archive(0));
    assert s.conversations == ARCHIVED.conversations;
  }

  const COUNTED_ON := RACED.(txns := RACED.txns - {2})

  lemma CustomerWritesAgain()
    ensures Leads(EMPTY, COUNTED_ON)
  {
    StaffClaims();
    var s := Onward(EMPTY, ARCHIVED, BeginEnqueue(1, 0));
    assert IsOpenIn(s.sessions, 5, 0);
    s := Onward(EMPTY, s, InsertSession(1, 6));
    assert s.issued == {5, 6} && s.txns == COUNTED_ON.txns;
  }

  lemma StaffCloses()
    ensures Leads(EMPTY, RACED)
  {
    CustomerWritesAgain();
    var s := Onward(EMPTY, COUNTED_ON, CheckAssignee(2, 5, 7, Resolved, Closed));
    s := Onward(EMPTY, s, CloseClaimed(2));
    assert s.txns == RACED.txns;
  }

  lemma ClosingAgainRaces()
    ensures Leads(EMPTY, RACED) && Inv(RACED) && Enabled(RACED, SkipRelease(2))
  {
    StaffCloses();
    LedKeepsInv(RACED);
  }

  lemma LedKeepsInv(s: State)
    requires Leads(EMPTY, s)
    ensures Inv(s)
  {
    var run :| LeadsBy(EMPTY, run, s);
    RunKeepsInv(EMPTY, run);
  }

  /** A customer waits, staff claim, the customer archives and writes again; then staff resolve and close.
      Everybody commits, and the conversation is transferred with nobody to serve it and nothing to sweep. */
  lemma ClosingAgainLosesConversation() returns (end: State)
    ensures Leads(EMPTY, RACED) && Enabled(RACED, SkipRelease(2))
    ensures Leads(Apply(RACED, SkipRelease(2)), end) && Lost(end, 0)
  {
    ClosingAgainRaces();
    assert Relied(RACED, 2, 1);
    SkippedThenCommitted(RACED, 2, 1);
    end := Final(Apply(RACED, SkipRelease(2)), [Commit(2), Commit(1)]);
    assert LeadsBy(Apply(RACED, SkipRelease(2)), [Commit(2), Commit(1)], end);
  }

  // ---- A failed enqueue that is swallowed ----

  /** A swallowed failure is harmless: the conversation has an open session, and nobody is closing it unnoticed. */
  predicate SafeSwallow(s: State, c: ConversationId) {
    HasOpen(s.sessions, c) && forall u <- s.txns :: !SilentOn(s, s.txns[u], c)
  }

  lemma SwallowKeepsInv(s: State, t: TxnId)
    requires Inv(s) && Enabled(s, SwallowFailure(t)) && SafeSwallow(s, s.txns[t].stage.c)
    ensures Inv(Apply(s, SwallowFailure(t)))
  {
    var x := s.txns[t];
    var y := x.(stage := Enqueued(x.stage.c));
    assert TxnOk(s, x) && Issued(s, x);
    forall u | u in s.txns && u != t ensures Apart(s, y, s.txns[u]) {
      assert Apart(s, x, s.txns[u]) && !SilentOn(s, s.txns[u], x.stage.c);
    }
    BeginKeepsInv(s, t, y);
  }

  lemma TransferAloneIsLost(s: State, y: Txn, c: ConversationId)
    requires y.sessions == map[] && y.conversations == map[c := Transferred] && !HasOpen(s.sessions, c)
    ensures Lost(Committed(s, y), c)
  {
    assert s.sessions + y.sessions == s.sessions;
  }

  lemma TransfersAlone(s: State, x: Txn)
    requires x.stage.Enqueuing? && TxnOk(s, x)
    ensures x.sessions == map[] && x.conversations == map[x.stage.c := Transferred]
  {
  }

  /** Without an open session the swallowing request's own commit loses the conversation. */
  lemma SwallowedThenCommitted(s: State, t: TxnId)
    requires Inv(s) && Enabled(s, SwallowFailure(t)) && !HasOpen(s.sessions, s.txns[t].stage.c)
    ensures
      var swallowed := Apply(s, SwallowFailure(t));
      IsRun(swallowed, [Commit(t)]) && Lost(Final(swallowed, [Commit(t)]), s.txns[t].stage.c)
  {
    var swallowed := Apply(s, SwallowFailure(t));
    TransfersAlone(s, s.txns[t]);
    TransferAloneIsLost(swallowed, swallowed.txns[t], s.txns[t].stage.c);
    OneCommit(swallowed, t);
  }

  /** Committing a close that nobody notices and then a transfer without a session of its own. */
  lemma ClosedThenTransferredIsLost(s: State, x: Txn, y: Txn, c: ConversationId)
    requires OneOpenEach(s.sessions) && TxnOk(s, x) && SilentOn(s, x, c)
    requires y.sessions == map[] && y.conversations == map[c := Transferred]
    ensures Lost(Committed(Committed(s, x), y), c) && Lost(Committed(Committed(s, y), x), c)
  {
    var sid := x.stage.s;
    assert IsOpenIn(s.sessions, sid, c);
    assert s.sessions + x.sessions + y.sessions == s.sessions + y.sessions + x.sessions == s.sessions[sid := x.sessions[sid]];
  }

  /** With a transaction about to close the open session unnoticed, its commit and the swallowing request's
      lose the conversation, whichever comes first. */
  lemma SwallowedThenClosed(s: State, t: TxnId, u: TxnId)
    requires Inv(s) && Enabled(s, SwallowFailure(t)) && u in s.txns && SilentOn(s, s.txns[u], s.txns[t].stage.c)
    ensures
      var swallowed, c := Apply(s, SwallowFailure(t)), s.txns[t].stage.c;
      && IsRun(swallowed, [Commit(t), Commit(u)]) && Lost(Final(swallowed, [Commit(t), Commit(u)]), c)
      && IsRun(swallowed, [Commit(u), Commit(t)]) && Lost(Final(swallowed, [Commit(u), Commit(t)]), c)
  {
    var swallowed := Apply(s, SwallowFailure(t));
    assert TxnOk(s, s.txns[u]);
    TransfersAlone(s, s.txns[t]);
    ClosedThenTransferredIsLost(s, s.txns[u], swallowed.txns[t], s.txns[t].stage.c);
    TwoCommits(swallowed, t, u);
    TwoCommits(swallowed, u, t);
  }

  /** When the failure of an enqueue is swallowed, every later state of every guarded run serves its transferred
      conversations exactly when the conversation has an open session that nobody is closing unnoticed. */
  lemma SwallowedFailureIsSafeIff(s: State, t: TxnId)
    requires Inv(s) && Enabled(s, SwallowFailure(t))
    ensures AlwaysServes(Apply(s, SwallowFailure(t))) <==>
      HasOpen(s.sessions, s.txns[t].stage.c) && forall u <- s.txns :: !SilentOn(s, s.txns[u], s.txns[t].stage.c)
  {
    var swallowed, c := Apply(s, SwallowFailure(t)), s.txns[t].stage.c;
    if SafeSwallow(s, c) {
      SwallowKeepsInv(s, t);
      InvAlwaysServes(swallowed);
    } else if !HasOpen(s.sessions, c) {
      SwallowedThenCommitted(s, t);
      LostIsUnserved(swallowed, [Commit(t)], c);
    } else {
      var u :| u in s.txns && SilentOn(s, s.txns[u], c);
      SwallowedThenClosed(s, t, u);
      LostIsUnserved(swallowed, [Commit(t), Commit(u)], c);
    }
  }

  /** The customer has archived the conversation and written again; the handoff turn has not looked for a
      session yet, and staff have closed the claimed one without touching the conversation. */
  const CLOSED_UNNOTICED := ARCHIVED.(
    txns := map[1 := Txn(Enqueuing(0), {}, {0}, map[], map[0 := Transferred], multiset{}, map[]),
                2 := Txn(Resolved'(5), {5}, {}, map[5 := ClosedAs(CLAIMED, Resolved, 0)], map[], multiset{}, map[])])

  const ABOUT_TO_SKIP := CLOSED_UNNOTICED.(
    txns := CLOSED_UNNOTICED.txns[2 := Txn(Unassigned(5, Closed), {5}, {}, map[5 := ClosedAs(CLAIMED, Resolved, 0)], map[], multiset{}, map[])])

  const WRITTEN_AGAIN := CLOSED_UNNOTICED.(txns := CLOSED_UNNOTICED.txns - {2})

  lemma CustomerIsBack()
    ensures Leads(EMPTY, WRITTEN_AGAIN)
  {
    StaffClaims();
    var s := Onward(EMPTY, ARCHIVED, BeginEnqueue(1, 0));
    assert s.txns == WRITTEN_AGAIN.txns;
  }

  lemma StaffCloseMeanwhile()
    ensures Leads(EMPTY, ABOUT_TO_SKIP)
  {
    CustomerIsBack();
    var s := Onward(EMPTY, WRITTEN_AGAIN, CheckAssignee(2, 5, 7, Resolved, Closed));
    s := Onward(EMPTY, s, CloseClaimed(2));
    assert s.txns == ABOUT_TO_SKIP.txns;
  }

  lemma NobodyNotices()
    ensures Leads(EMPTY, CLOSED_UNNOTICED)
  {
    StaffCloseMeanwhile();
    assert SafeSkip(ABOUT_TO_SKIP, SkipRelease(2));
    var s := Onward(EMPTY, ABOUT_TO_SKIP, SkipRelease(2));
    assert s.txns == CLOSED_UNNOTICED.txns;
  }

  lemma UnnoticedCloseRaces()
    ensures Leads(EMPTY, CLOSED_UNNOTICED) && Inv(CLOSED_UNNOTICED) && Enabled(CLOSED_UNNOTICED, SwallowFailure(1))
    ensures HasOpen(CLOSED_UNNOTICED.sessions, 0) && SilentOn(CLOSED_UNNOTICED, CLOSED_UNNOTICED.txns[2], 0)
  {
    NobodyNotices();
    LedKeepsInv(CLOSED_UNNOTICED);
    assert IsOpenIn(CLOSED_UNNOTICED.sessions, 5, 0);
  }

  lemma StillServed(s: State)
    requires s.sessions == CLOSED_UNNOTICED.sessions && s.conversations.Keys == {0}
    ensures TransferredIsServed(s)
  {
    assert IsOpenIn(s.sessions, 5, 0);
  }

  /** An open session is not enough: here it is open and the commit of the swallowing request leaves its
      conversation served, and then the commit of staff, who skipped their status write safely, loses it. */
  lemma SwallowingLosesServedConversation() returns (served: State, end: State)
    ensures Leads(EMPTY, CLOSED_UNNOTICED) && HasOpen(CLOSED_UNNOTICED.sessions, 0)
    ensures Enabled(CLOSED_UNNOTICED, SwallowFailure(1))
    ensures LeadsBy(Apply(CLOSED_UNNOTICED, SwallowFailure(1)), [Commit(1)], served) && TransferredIsServed(served)
    ensures LeadsBy(Apply(CLOSED_UNNOTICED, SwallowFailure(1)), [Commit(1), Commit(2)], end) && Lost(end, 0)
  {
    UnnoticedCloseRaces();
    SwallowedThenClosed(CLOSED_UNNOTICED, 1, 2);
    var swallowed := Apply(CLOSED_UNNOTICED, SwallowFailure(1));
    OneCommit(swallowed, 1);
    served := Final(swallowed, [Commit(1)]);
    StillServed(served);
    end := Final(swallowed, [Commit(1), Commit(2)]);
  }
}
