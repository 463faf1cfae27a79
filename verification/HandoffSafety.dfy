/** Safety of the handoff protocol over every interleaving of enqueues, claims, resolutions,
    sweeps, archivings and deletions. */
module HandoffSafety {
  import opened Wrappers
  import opened Handoff

  // ---- What an open transaction has prepared ----

  /** `row` is a later version of the session `was`: same conversation, same assignee once there is
      one, fields fitting the status. */
  predicate Moves(was: Session, row: Session) {
    && row.conversation == was.conversation && row.createdAt == was.createdAt && FieldsMatch(row)
    && (was.assignee.Some? ==> row.assignee == was.assignee && row.claimedAt == was.claimedAt)
  }

  predicate RaisesNothing(x: Txn) {
    x.escalated == multiset{} && x.tickets == map[]
  }

  predicate EnqueueOk(s: State, x: Txn, c: ConversationId) {
    && c in s.conversations
    && x.conversationLocks == {c}
    && x.conversations == map[c := Transferred]
    && RaisesNothing(x)
  }

  /** The transaction will leave its conversation with an open session: an existing one, or the one it inserts. */
  predicate EnqueuedOk(s: State, x: Txn, c: ConversationId) {
    if x.sessions == map[] then x.sessionLocks == {} && HasOpen(s.sessions, c)
    else
      && !HasOpen(s.sessions, c)
      && x.sessionLocks == x.sessions.Keys
      && |x.sessions| == 1
      && forall sid <- x.sessions ::
           sid !in s.sessions && x.sessions[sid].status == Queued && x.sessions[sid].conversation == c
           && FieldsMatch(x.sessions[sid])
  }

  predicate CloseOk(s: State, x: Txn, sid: SessionId) {
    && sid in s.sessions && s.sessions[sid].status == Claimed
    && x.sessionLocks == {sid} == x.sessions.Keys
    && Moves(s.sessions[sid], x.sessions[sid])
    && x.sessions[sid].status in {Resolved, Returned}
    && RaisesNothing(x)
  }

  /** The transaction holds its conversation and writes its next status, or has found that status
      there and holds nothing. */
  predicate ReleaseOk(s: State, x: Txn, c: ConversationId) {
    if x.conversationLocks == {} then
      x.conversations == map[] && c in s.conversations && s.conversations[c] != Transferred
    else
      && x.conversationLocks == {c}
      && x.conversations.Keys == {c} * s.conversations.Keys
      && forall d <- x.conversations :: x.conversations[d] != Transferred
  }

  predicate HasTicket(tickets: map<SessionId, Ticket>, c: ConversationId) {
    exists k <- tickets :: tickets[k].conversation == c
  }

  /** A session this sweep has dealt with: timed out, and if it still has its conversation, escalated
      once, with a ticket of the conversation and the conversation handed back. */
  predicate SweptRow(s: State, x: Txn, sid: SessionId) {
    && sid in s.sessions && sid in x.sessions
    && Moves(s.sessions[sid], x.sessions[sid]) && x.sessions[sid].status == TimedOut
    && var c := s.sessions[sid].conversation;
      c in s.conversations ==>
        c in x.conversations && x.escalated[sid] == 1 && (HasTicket(s.tickets, c) || HasTicket(x.tickets, c))
  }

  predicate RaisedOnce(x: Txn, sid: SessionId) {
    sid in x.sessions && x.escalated[sid] == 1
  }

  /** A ticket this sweep has raised: for a session of its own whose conversation had none open. */
  predicate NewTicket(s: State, x: Txn, k: SessionId) {
    && k in x.tickets && k in x.sessions && k in s.sessions
    && x.tickets[k] == Ticket(s.sessions[k].conversation, true)
    && x.tickets[k].conversation in x.conversationLocks
    && !HasOpenTicket(s.tickets, x.tickets[k].conversation)
  }

  predicate HandsBack(s: State, x: Txn, c: ConversationId) {
    && c in x.conversations && c in s.conversations && x.conversations[c] == Active
    && exists sid <- x.sessions :: sid in s.sessions && s.sessions[sid].conversation == c
  }

  /** The sweep holds the rows of its sessions, done and to do, and of the conversations it has written. */
  predicate SweepHolds(s: State, x: Txn, todo: set<SessionId>) {
    && todo <= x.sessionLocks <= s.sessions.Keys
    && x.sessions.Keys == x.sessionLocks - todo
    && (forall sid <- x.sessionLocks :: s.sessions[sid].status == Queued)
    && (forall c <- x.conversations :: HandsBack(s, x, c))
    && x.conversations.Keys == x.conversationLocks
  }

  predicate SweepOk(s: State, x: Txn, todo: set<SessionId>) {
    && SweepHolds(s, x, todo)
    && (forall sid <- x.sessions :: SweptRow(s, x, sid))
    && (forall sid <- x.escalated :: RaisedOnce(x, sid))
    && (forall k <- x.tickets :: NewTicket(s, x, k))
  }

  predicate TxnOk(s: State, x: Txn) {
    match x.stage
    case Enqueuing(c) => EnqueueOk(s, x, c) && x.sessionLocks == {} && x.sessions == map[]
    case Enqueued(c) => EnqueueOk(s, x, c) && EnqueuedOk(s, x, c)
    case Claiming(sid) =>
      && sid in s.sessions && s.sessions[sid].status == Queued
      && x.sessionLocks == {sid} == x.sessions.Keys
      && Moves(s.sessions[sid], x.sessions[sid]) && x.sessions[sid].status == Claimed
      && x.conversationLocks == {} && x.conversations == map[] && RaisesNothing(x)
    case Resolving(_, to, next) => x == Fresh(x.stage) && to in {Resolved, Returned} && next != Transferred
    case Unassigned(sid, next) =>
      CloseOk(s, x, sid) && x.conversationLocks == {} && x.conversations == map[] && next != Transferred
    case Resolved'(sid) => CloseOk(s, x, sid) && ReleaseOk(s, x, s.sessions[sid].conversation)
    case Sweeping(todo) => SweepOk(s, x, todo)
  }

  // ---- Two open transactions ----

  /** The transaction closes a session of `c` without having locked `c`. */
  predicate SilentOn(s: State, x: Txn, c: ConversationId) {
    && x.stage.Resolved'? && x.conversationLocks == {}
    && x.stage.s in s.sessions && s.sessions[x.stage.s].conversation == c
  }

  /** The two hold different rows, and neither closes unnoticed the session that the other counts on. */
  predicate Apart(s: State, x: Txn, y: Txn) {
    && x.sessionLocks !! y.sessionLocks
    && x.conversationLocks !! y.conversationLocks
    && (x.stage.Enqueued? ==> !SilentOn(s, y, x.stage.c))
    && (y.stage.Enqueued? ==> !SilentOn(s, x, y.stage.c))
  }

  // ---- The invariant ----

  predicate SameOpen(a: Session, b: Session) {
    IsOpen(a) && IsOpen(b) && a.conversation == b.conversation
  }

  predicate OneOpenEach(sessions: map<SessionId, Session>) {
    forall i, j ::
      i in sessions && j in sessions && SameOpen(sessions[i], sessions[j]) ==> i == j
  }

  predicate OneOpenTicketEach(tickets: map<SessionId, Ticket>) {
    forall i, j :: i in tickets && j in tickets && tickets[i].open && tickets[i] == tickets[j] ==> i == j
  }

  /** In a committed state a transferred conversation has an open session. */
  predicate TransferredIsServed(s: State) {
    forall c <- s.conversations :: s.conversations[c] == Transferred ==> HasOpen(s.sessions, c)
  }

  /** A session's fields fit its status; it has its conversation, which is not back with the assistant
      while the session is open; and once timed out it has been escalated to a ticket. */
  predicate RowOk(s: State, sid: SessionId) {
    sid in s.sessions ==>
      var row := s.sessions[sid];
      && FieldsMatch(row) && sid in s.issued
      && row.conversation in s.conversations
      && (IsOpen(row) ==> s.conversations[row.conversation] != Active)
      && (row.status == TimedOut ==> sid in s.escalations && HasTicket(s.tickets, row.conversation))
  }

  predicate EscalationOk(s: State, sid: SessionId) {
    sid in s.escalations ==>
      s.escalations[sid] == 1 && sid in s.issued && (sid in s.sessions ==> s.sessions[sid].status == TimedOut)
  }

  predicate TicketOk(s: State, k: SessionId) {
    k in s.tickets ==>
      k in s.escalations && (k in s.sessions ==> s.sessions[k].conversation == s.tickets[k].conversation)
  }

  predicate CommittedOk(s: State) {
    && (forall sid <- s.sessions :: RowOk(s, sid))
    && OneOpenEach(s.sessions)
    && TransferredIsServed(s)
    && (forall sid <- s.escalations :: EscalationOk(s, sid))
    && OneOpenTicketEach(s.tickets)
    && (forall k <- s.tickets :: TicketOk(s, k))
  }

  /** Session ids are given out once: a session about to be inserted has never been escalated. */
  predicate Issued(s: State, x: Txn) {
    && x.sessionLocks + x.sessions.Keys <= s.issued
    && forall sid <- x.sessions :: sid in s.sessions || sid !in s.escalations
  }

  predicate Inv(s: State) {
    && CommittedOk(s)
    && (forall t <- s.txns :: TxnOk(s, s.txns[t]) && Issued(s, s.txns[t]))
    && (forall t, u :: t in s.txns && u in s.txns && t != u ==> Apart(s, s.txns[t], s.txns[u]))
  }

  lemma SameCommittedRows(s: State, s': State)
    requires CommittedOk(s) && s'.sessions == s.sessions && s'.escalations == s.escalations && s'.tickets == s.tickets
    requires s.issued <= s'.issued && s.conversations.Keys <= s'.conversations.Keys
    requires forall c <- s.conversations :: s'.conversations[c] in {s.conversations[c], Closed}
    requires forall c <- s'.conversations :: s'.conversations[c] == Transferred ==> c in s.conversations
    ensures CommittedOk(s')
  {
    forall sid | sid in s'.sessions ensures RowOk(s', sid) { assert RowOk(s, sid); }
    forall sid | sid in s'.escalations ensures EscalationOk(s', sid) { assert EscalationOk(s, sid); }
    forall k | k in s'.tickets ensures TicketOk(s', k) { assert TicketOk(s, k); }
  }

  // ---- Steps that leave a transaction's own rows alone ----

  predicate TicketsLast(before: map<SessionId, Ticket>, after: map<SessionId, Ticket>) {
    forall k <- before :: k in after && after[k].conversation == before[k].conversation
  }

  /** No session that `y` has locked is touched, nor whether its conversation exists. */
  predicate SessionsAlone(s: State, s': State, y: Txn) {
    forall sid <- y.sessionLocks ::
      && (sid in s.sessions <==> sid in s'.sessions)
      && (sid in s.sessions ==>
            s'.sessions[sid] == s.sessions[sid]
            && (s.sessions[sid].conversation in s.conversations <==> s.sessions[sid].conversation in s'.conversations))
  }

  predicate TicketsAlone(s: State, s': State, y: Txn) {
    && TicketsLast(s.tickets, s'.tickets)
    && forall k <- y.tickets ::
         HasOpenTicket(s'.tickets, y.tickets[k].conversation) ==> HasOpenTicket(s.tickets, y.tickets[k].conversation)
  }

  /** Going from `s` to `s'` touches no row that `y` has locked, nor the open session it counts on, nor
      the status it has found. */
  predicate LeavesAlone(s: State, s': State, y: Txn) {
    && SessionsAlone(s, s', y)
    && (forall c <- y.conversationLocks :: c in s.conversations <==> c in s'.conversations)
    && (y.stage.Enqueued? ==> (HasOpen(s.sessions, y.stage.c) <==> HasOpen(s'.sessions, y.stage.c)))
    && TicketsAlone(s, s', y)
    && (forall c <- s'.conversations :: SilentOn(s, y, c) && s'.conversations[c] == Transferred ==>
          c in s.conversations && s.conversations[c] == Transferred)
  }

  lemma LeftAloneStaysOk(s: State, s': State, y: Txn)
    requires TxnOk(s, y) && LeavesAlone(s, s', y)
    ensures TxnOk(s', y)
  {
    match y.stage
    case Enqueued(c) =>
    case Claiming(sid) =>
    case Unassigned(sid, next) =>
    case Resolved'(sid) =>
    case Sweeping(todo) => SweepLeftAlone(s, s', y, todo);
    case _ =>
  }

  lemma SweepLeftAlone(s: State, s': State, y: Txn, todo: set<SessionId>)
    requires SweepOk(s, y, todo) && LeavesAlone(s, s', y)
    ensures SweepOk(s', y, todo)
  {
    forall sid | sid in y.sessionLocks ensures sid in s'.sessions && s'.sessions[sid] == s.sessions[sid] {
    }
    forall sid | sid in y.sessions ensures SweptRow(s', y, sid) {
      assert sid in y.sessionLocks && SweptRow(s, y, sid);
      TicketStays(s, s', s.sessions[sid].conversation);
    }
    forall k | k in y.tickets ensures NewTicket(s', y, k) {
      assert NewTicket(s, y, k) && k in y.sessionLocks;
    }
    forall c | c in y.conversations ensures HandsBack(s', y, c) {
      assert HandsBack(s, y, c) && c in y.conversationLocks;
      var sid :| sid in y.sessions && sid in s.sessions && s.sessions[sid].conversation == c;
      assert sid in y.sessionLocks;
    }
  }

  lemma TicketStays(s: State, s': State, c: ConversationId)
    requires TicketsLast(s.tickets, s'.tickets)
    ensures HasTicket(s.tickets, c) ==> HasTicket(s'.tickets, c)
  {
    if HasTicket(s.tickets, c) {
      var k :| k in s.tickets && s.tickets[k].conversation == c;
      assert k in s'.tickets;
    }
  }

  // ---- Commit ----

  /** Every row a commit writes is one its transaction had locked, and no conversation appears. */
  lemma WritesAreLocked(s: State, x: Txn)
    requires TxnOk(s, x) && CanCommit(x)
    ensures x.sessions.Keys <= x.sessionLocks
    ensures x.conversations.Keys <= x.conversationLocks
    ensures (s.conversations + x.conversations).Keys == s.conversations.Keys
  {
    if x.stage.Sweeping? {
      forall c | c in x.conversations ensures c in s.conversations { assert HandsBack(s, x, c); }
    }
    assert x.conversations.Keys <= s.conversations.Keys;
  }

  /** A written row is a later version of the one it replaces, or a new queued session. */
  lemma WrittenRows(s: State, x: Txn, sid: SessionId)
    requires TxnOk(s, x) && CanCommit(x) && sid in x.sessions
    ensures FieldsMatch(x.sessions[sid])
    ensures sid !in s.sessions ==>
      x.stage.Enqueued? && x.sessions[sid].conversation == x.stage.c && !HasOpen(s.sessions, x.stage.c)
      && x.sessions == map[sid := x.sessions[sid]]
    ensures sid in s.sessions ==>
      var c := s.sessions[sid].conversation;
      IsOpen(s.sessions[sid]) && x.sessions[sid].conversation == c
      && (IsOpen(x.sessions[sid]) || c in x.conversationLocks || SilentOn(s, x, c) || c !in s.conversations)
  {
    if x.stage.Enqueued? {
      assert |x.sessions.Keys - {sid}| == 0;
      assert x.sessions.Keys - {sid} == {};
      assert x.sessions.Keys == {sid};
    } else if x.stage.Sweeping? {
      assert SweptRow(s, x, sid);
    }
  }

  /** What a commit does to the open sessions of a conversation that it has not locked, unless it closes
      one of them unnoticed. */
  lemma CommitKeepsOpen(s: State, x: Txn, c: ConversationId)
    requires TxnOk(s, x) && CanCommit(x)
    requires c !in x.conversationLocks && c in s.conversations && !SilentOn(s, x, c)
    ensures HasOpen(s.sessions + x.sessions, c) <==> HasOpen(s.sessions, c)
  {
    var after := s.sessions + x.sessions;
    forall sid ensures IsOpenIn(s.sessions, sid, c) <==> IsOpenIn(after, sid, c) {
      if sid in x.sessions { WrittenRows(s, x, sid); }
    }
  }

  /** A session that has not timed out has neither been escalated nor got a ticket. */
  lemma NotTimedOutMeansNotRaised(s: State, k: SessionId)
    requires CommittedOk(s) && k in s.sessions && s.sessions[k].status != TimedOut
    ensures k !in s.escalations && k !in s.tickets
  {
    assert k in s.escalations ==> EscalationOk(s, k);
    assert k in s.tickets ==> TicketOk(s, k);
  }

  /** The tickets of a commit are for sessions that have none, and for conversations it has locked. */
  lemma TicketsAreNew(s: State, x: Txn)
    requires CommittedOk(s) && TxnOk(s, x)
    ensures x.tickets.Keys !! s.tickets.Keys
    ensures forall k <- x.tickets :: x.stage.Sweeping? && NewTicket(s, x, k) && s.sessions[k].status == Queued
  {
    forall k | k in x.tickets
      ensures x.stage.Sweeping? && NewTicket(s, x, k) && s.sessions[k].status == Queued && k !in s.tickets
    {
      assert NewTicket(s, x, k) && k in x.sessionLocks;
      NotTimedOutMeansNotRaised(s, k);
    }
  }

  lemma OpenInEither(a: map<SessionId, Ticket>, b: map<SessionId, Ticket>, c: ConversationId)
    requires a.Keys !! b.Keys
    ensures HasOpenTicket(a + b, c) <==> HasOpenTicket(a, c) || HasOpenTicket(b, c)
  {
    forall k ensures k in a + b && (a + b)[k] == Ticket(c, true) <==>
      (k in a && a[k] == Ticket(c, true)) || (k in b && b[k] == Ticket(c, true))
    {
    }
  }

  lemma TicketsAreLocked(s: State, x: Txn, c: ConversationId)
    requires TxnOk(s, x) && c !in x.conversationLocks
    ensures !HasOpenTicket(x.tickets, c)
  {
    forall k | k in x.tickets ensures x.tickets[k].conversation != c {
      assert NewTicket(s, x, k);
    }
  }

  lemma CommitLeavesTicketsAlone(s: State, x: Txn, y: Txn)
    requires CommittedOk(s) && TxnOk(s, x) && TxnOk(s, y) && CanCommit(x) && Apart(s, x, y)
    ensures TicketsAlone(s, Committed(s, x), y)
  {
    TicketsAreNew(s, x);
    var after := Committed(s, x);
    forall k | k in y.tickets ensures !HasOpenTicket(after.tickets, y.tickets[k].conversation) {
      assert NewTicket(s, y, k);
      TicketsAreLocked(s, x, y.tickets[k].conversation);
      OpenInEither(s.tickets, x.tickets, y.tickets[k].conversation);
    }
  }

  lemma CommitLeavesAlone(s: State, x: Txn, y: Txn)
    requires CommittedOk(s) && TxnOk(s, x) && TxnOk(s, y) && CanCommit(x) && Apart(s, x, y)
    ensures LeavesAlone(s, Committed(s, x), y) && TxnOk(Committed(s, x), y)
  {
    var after := Committed(s, x);
    WritesAreLocked(s, x);
    if y.stage.Enqueued? {
      CommitKeepsOpen(s, x, y.stage.c);
    }
    CommitLeavesTicketsAlone(s, x, y);
    forall c | c in after.conversations && SilentOn(s, y, c) && after.conversations[c] == Transferred
      ensures c in s.conversations && s.conversations[c] == Transferred
    {
      NothingElseTransfers(s, x, c);
    }
    LeftAloneStaysOk(s, after, y);
  }

  /** Only an enqueue transfers a conversation. */
  lemma NothingElseTransfers(s: State, x: Txn, c: ConversationId)
    requires TxnOk(s, x) && CanCommit(x) && c in s.conversations + x.conversations
    requires (s.conversations + x.conversations)[c] == Transferred
    ensures (x.stage.Enqueued? && x.stage.c == c) || (c in s.conversations && s.conversations[c] == Transferred)
  {
    assert c in x.conversations && x.stage.Sweeping? ==> HandsBack(s, x, c);
  }

  lemma CommitKeepsOneOpen(s: State, x: Txn)
    requires OneOpenEach(s.sessions) && TxnOk(s, x) && CanCommit(x)
    ensures OneOpenEach(s.sessions + x.sessions)
  {
    var after := s.sessions + x.sessions;
    forall i, j | i in after && j in after && SameOpen(after[i], after[j]) ensures i == j {
      if i in x.sessions { WrittenRows(s, x, i); }
      if j in x.sessions { WrittenRows(s, x, j); }
      if i in s.sessions && j in s.sessions {
        assert SameOpen(s.sessions[i], s.sessions[j]);
      }
    }
  }

  lemma CommitKeepsServed(s: State, x: Txn, c: ConversationId)
    requires CommittedOk(s) && TxnOk(s, x) && CanCommit(x)
    requires c in s.conversations && (s.conversations + x.conversations)[c] == Transferred
    ensures HasOpen(s.sessions + x.sessions, c)
  {
    WritesAreLocked(s, x);
    NothingElseTransfers(s, x, c);
    if c !in x.conversationLocks {
      CommitKeepsOpen(s, x, c);
    } else if x.stage.Enqueued? {
      EnqueueServes(s, x, c);
    }
  }

  lemma EnqueueServes(s: State, x: Txn, c: ConversationId)
    requires x.stage == Enqueued(c) && TxnOk(s, x)
    ensures HasOpen(s.sessions + x.sessions, c)
  {
    var after := s.sessions + x.sessions;
    if x.sessions == map[] {
      assert after == s.sessions;
    } else {
      var sid :| sid in x.sessions;
      assert IsOpenIn(after, sid, c);
    }
  }

  /** A commit that hands a conversation back closes an open session of it. */
  lemma HandsBackByClosing(s: State, x: Txn, c: ConversationId) returns (k: SessionId)
    requires TxnOk(s, x) && CanCommit(x) && c in x.conversations && x.conversations[c] == Active
    ensures k in x.sessions && k in s.sessions && s.sessions[k].conversation == c
    ensures IsOpen(s.sessions[k]) && !IsOpen(x.sessions[k])
  {
    if x.stage.Sweeping? {
      assert HandsBack(s, x, c);
      k :| k in x.sessions && k in s.sessions && s.sessions[k].conversation == c;
      assert SweptRow(s, x, k) && k in x.sessionLocks;
    } else {
      k := x.stage.s;
    }
  }

  /** So it leaves that conversation without an open session. */
  lemma OpenIsNotHandedBack(s: State, x: Txn, sid: SessionId)
    requires OneOpenEach(s.sessions) && TxnOk(s, x) && CanCommit(x) && sid in s.sessions + x.sessions
    requires IsOpen((s.sessions + x.sessions)[sid])
    ensures
      var c := (s.sessions + x.sessions)[sid].conversation;
      c in x.conversations ==> x.conversations[c] != Active
  {
    var c := (s.sessions + x.sessions)[sid].conversation;
    if sid in x.sessions { WrittenRows(s, x, sid); }
    if c in x.conversations && x.conversations[c] == Active {
      var k := HandsBackByClosing(s, x, c);
      assert sid in s.sessions ==> SameOpen(s.sessions[k], s.sessions[sid]);
    }
  }

  lemma CommitKeepsOpenRow(s: State, x: Txn, sid: SessionId)
    requires CommittedOk(s) && TxnOk(s, x) && Issued(s, x) && CanCommit(x)
    requires sid in s.sessions + x.sessions && IsOpen((s.sessions + x.sessions)[sid])
    ensures RowOk(Committed(s, x), sid)
  {
    WritesAreLocked(s, x);
    OpenIsNotHandedBack(s, x, sid);
    assert sid in s.sessions ==> RowOk(s, sid);
    if sid in x.sessions { WrittenRows(s, x, sid); }
  }

  lemma CommitKeepsClosedRow(s: State, x: Txn, sid: SessionId)
    requires CommittedOk(s) && TxnOk(s, x) && Issued(s, x) && CanCommit(x)
    requires sid in x.sessions && !IsOpen(x.sessions[sid])
    ensures RowOk(Committed(s, x), sid)
  {
    WritesAreLocked(s, x);
    WrittenRows(s, x, sid);
    assert sid in s.sessions ==> RowOk(s, sid);
    if x.stage.Sweeping? {
      assert SweptRow(s, x, sid);
      SweptHasTicket(s, x, sid);
    }
  }

  lemma CommitKeepsOtherRow(s: State, x: Txn, sid: SessionId)
    requires CommittedOk(s) && TxnOk(s, x) && CanCommit(x)
    requires sid in s.sessions && sid !in x.sessions && !IsOpen(s.sessions[sid])
    ensures RowOk(Committed(s, x), sid)
  {
    WritesAreLocked(s, x);
    assert RowOk(s, sid);
    CommitKeepsTickets(s, x);
    TicketStays(s, Committed(s, x), s.sessions[sid].conversation);
  }

  lemma CommitKeepsRow(s: State, x: Txn, sid: SessionId)
    requires CommittedOk(s) && TxnOk(s, x) && Issued(s, x) && CanCommit(x)
    ensures RowOk(Committed(s, x), sid)
  {
    if sid in s.sessions + x.sessions {
      if IsOpen((s.sessions + x.sessions)[sid]) { CommitKeepsOpenRow(s, x, sid); }
      else if sid in x.sessions { CommitKeepsClosedRow(s, x, sid); }
      else { CommitKeepsOtherRow(s, x, sid); }
    }
  }

  lemma CommitKeepsTickets(s: State, x: Txn)
    requires CommittedOk(s) && TxnOk(s, x) && CanCommit(x)
    ensures TicketsLast(s.tickets, s.tickets + x.tickets)
  {
    TicketsAreNew(s, x);
  }

  lemma SweptHasTicket(s: State, x: Txn, sid: SessionId)
    requires CommittedOk(s) && TxnOk(s, x) && CanCommit(x) && x.stage.Sweeping? && sid in x.sessions
    ensures sid in s.sessions && HasTicket(s.tickets + x.tickets, s.sessions[sid].conversation)
  {
    assert SweptRow(s, x, sid) && RowOk(s, sid);
    var c := s.sessions[sid].conversation;
    if HasTicket(x.tickets, c) {
      var k :| k in x.tickets && x.tickets[k].conversation == c;
      assert k in s.tickets + x.tickets;
    } else {
      CommitKeepsTickets(s, x);
      TicketStays(s, Committed(s, x), c);
    }
  }

  lemma EscalatedIsNew(s: State, x: Txn, sid: SessionId)
    requires CommittedOk(s) && TxnOk(s, x) && CanCommit(x) && sid in x.escalated
    ensures sid in x.sessions && x.escalated[sid] == 1 && sid !in s.escalations
    ensures sid in s.sessions && x.sessions[sid].status == TimedOut
  {
    assert RaisedOnce(x, sid) && SweptRow(s, x, sid) && sid in x.sessionLocks;
    NotTimedOutMeansNotRaised(s, sid);
  }

  /** A commit writes no session that has been escalated before. */
  lemma EscalatedIsNotWritten(s: State, x: Txn, sid: SessionId)
    requires CommittedOk(s) && TxnOk(s, x) && CanCommit(x) && sid in s.escalations
    ensures sid in x.sessions ==> sid !in s.sessions
  {
    assert EscalationOk(s, sid);
    if sid in x.sessions { WrittenRows(s, x, sid); }
  }

  /** An escalation is made once, for a session that this same commit times out. */
  lemma CommitKeepsEscalations(s: State, x: Txn, sid: SessionId)
    requires CommittedOk(s) && TxnOk(s, x) && Issued(s, x) && CanCommit(x)
    ensures EscalationOk(Committed(s, x), sid)
  {
    if sid in x.escalated {
      EscalatedIsNew(s, x, sid);
    } else if sid in s.escalations {
      assert EscalationOk(s, sid);
      EscalatedIsNotWritten(s, x, sid);
    }
  }

  lemma CommitKeepsTicket(s: State, x: Txn, k: SessionId)
    requires CommittedOk(s) && TxnOk(s, x) && Issued(s, x) && CanCommit(x)
    ensures TicketOk(Committed(s, x), k)
  {
    TicketsAreNew(s, x);
    if k in x.tickets {
      assert NewTicket(s, x, k) && SweptRow(s, x, k) && RowOk(s, k);
    } else if k in s.tickets {
      assert TicketOk(s, k);
      EscalatedIsNotWritten(s, x, k);
    }
  }

  lemma OpenOnesDiffer(sessions: map<SessionId, Session>, i: SessionId, j: SessionId)
    requires OneOpenEach(sessions) && i in sessions && j in sessions && i != j
    requires IsOpen(sessions[i]) && IsOpen(sessions[j])
    ensures sessions[i].conversation != sessions[j].conversation
  {
    assert !SameOpen(sessions[i], sessions[j]);
  }

  lemma NewTicketsDiffer(s: State, x: Txn, i: SessionId, j: SessionId)
    requires OneOpenEach(s.sessions) && NewTicket(s, x, i) && NewTicket(s, x, j) && i != j
    requires s.sessions[i].status == s.sessions[j].status == Queued
    ensures x.tickets[i] != x.tickets[j]
  {
    OpenOnesDiffer(s.sessions, i, j);
  }

  lemma CommitKeepsOneTicket(s: State, x: Txn)
    requires CommittedOk(s) && TxnOk(s, x) && CanCommit(x)
    ensures OneOpenTicketEach(s.tickets + x.tickets)
  {
    var after := s.tickets + x.tickets;
    TicketsAreNew(s, x);
    forall i, j | i in after && j in after && i != j && after[i].open ensures after[i] != after[j] {
      if i in x.tickets && j in x.tickets {
        NewTicketsDiffer(s, x, i, j);
      } else if i in x.tickets {
        assert NewTicket(s, x, i);
      } else if j in x.tickets {
        assert NewTicket(s, x, j);
      }
    }
  }

  lemma CommitKeepsCommitted(s: State, x: Txn)
    requires CommittedOk(s) && TxnOk(s, x) && Issued(s, x) && CanCommit(x)
    ensures CommittedOk(Committed(s, x))
  {
    var after := Committed(s, x);
    CommitKeepsOneOpen(s, x);
    CommitKeepsOneTicket(s, x);
    WritesAreLocked(s, x);
    forall sid | sid in after.sessions ensures RowOk(after, sid) {
      CommitKeepsRow(s, x, sid);
    }
    forall c | c in after.conversations && after.conversations[c] == Transferred ensures HasOpen(after.sessions, c) {
      CommitKeepsServed(s, x, c);
    }
    forall sid | sid in after.escalations ensures EscalationOk(after, sid) {
      CommitKeepsEscalations(s, x, sid);
    }
    forall k | k in after.tickets ensures TicketOk(after, k) {
      CommitKeepsTicket(s, x, k);
    }
  }

  // ---- Beginning a transaction, or taking it one step further ----

  predicate ApartFromAll(s: State, t: TxnId, x: Txn) {
    forall u <- s.txns :: u != t ==> Apart(s, x, s.txns[u])
  }

  predicate SameTables(s: State, s': State) {
    && s'.sessions == s.sessions && s'.conversations == s.conversations && s'.escalations == s.escalations
    && s'.tickets == s.tickets && s.issued <= s'.issued
  }

  lemma SameTablesKeepTxn(s: State, s': State, y: Txn)
    requires SameTables(s, s') && TxnOk(s, y) && Issued(s, y)
    ensures TxnOk(s', y) && Issued(s', y)
  {
    LeftAloneStaysOk(s, s', y);
  }

  /** The invariant speaks of the tables and of the open transactions, of nothing else. */
  lemma SameTablesKeepInv(s: State, s': State)
    requires SameTables(s, s') && CommittedOk(s)
    requires forall t <- s'.txns :: TxnOk(s, s'.txns[t]) && Issued(s, s'.txns[t])
    requires forall t, u :: t in s'.txns && u in s'.txns && t != u ==> Apart(s, s'.txns[t], s'.txns[u])
    ensures Inv(s')
  {
    SameCommittedRows(s, s');
    forall u | u in s'.txns ensures TxnOk(s', s'.txns[u]) && Issued(s', s'.txns[u]) {
      SameTablesKeepTxn(s, s', s'.txns[u]);
    }
    forall u, v | u in s'.txns && v in s'.txns && u != v ensures Apart(s', s'.txns[u], s'.txns[v]) {
      assert Apart(s, s'.txns[u], s'.txns[v]);
    }
  }

  lemma BeginKeepsInv(s: State, t: TxnId, x: Txn)
    requires Inv(s) && TxnOk(s, x) && Issued(s, x) && ApartFromAll(s, t, x)
    ensures Inv(Begin(s, t, x))
  {
    var s' := Begin(s, t, x);
    forall u, v | u in s'.txns && v in s'.txns && u != v ensures Apart(s, s'.txns[u], s'.txns[v]) {
      if u == t { assert v in s.txns; } else if v == t { assert u in s.txns; }
    }
    SameTablesKeepInv(s, s');
  }

  lemma InsertKeepsOk(s: State, x: Txn, sid: SessionId)
    requires TxnOk(s, x) && x.stage.Enqueuing? && sid !in s.sessions
    ensures TxnOk(s, Inserted(s, x, sid))
  {
    if !HasOpen(s.sessions, x.stage.c) {
      var y := Inserted(s, x, sid);
      assert y.sessions == map[sid := NewSession(x.stage.c, s.now)];
      assert |y.sessions| == 1;
    }
  }

  /** Nobody closes the open session unnoticed that an insert finds: the insert would have waited. */
  lemma InsertIsApart(s: State, t: TxnId, sid: SessionId, u: TxnId)
    requires Inv(s) && Enabled(s, InsertSession(t, sid)) && u in s.txns && u != t
    ensures Apart(s, Inserted(s, s.txns[t], sid), s.txns[u])
  {
    var c := s.txns[t].stage.c;
    assert Apart(s, s.txns[t], s.txns[u]);
    assert TxnOk(s, s.txns[u]) && Issued(s, s.txns[u]);
    if SilentOn(s, s.txns[u], c) {
      assert IsOpenIn(s.sessions, s.txns[u].stage.s, c);
    }
  }

  lemma InsertKeepsInv(s: State, t: TxnId, sid: SessionId)
    requires Inv(s) && Enabled(s, InsertSession(t, sid))
    ensures Inv(Apply(s, InsertSession(t, sid)))
  {
    var s1 := s.(issued := s.issued + {sid});
    IssueKeepsInv(s, sid);
    var x := s.txns[t];
    assert RowOk(s, sid) && EscalationOk(s, sid);
    InsertKeepsOk(s1, x, sid);
    forall u | u in s1.txns && u != t ensures Apart(s1, Inserted(s1, x, sid), s1.txns[u]) {
      InsertIsApart(s, t, sid, u);
    }
    BeginKeepsInv(s1, t, Inserted(s1, x, sid));
  }

  lemma IssueKeepsInv(s: State, sid: SessionId)
    requires Inv(s)
    ensures Inv(s.(issued := s.issued + {sid}))
  {
    SameTablesKeepInv(s, s.(issued := s.issued + {sid}));
  }

  /** The conditional close of a swept session always finds its row still queued: the sweeper holds
      the row lock, so ignoring the outcome of the close is harmless. */
  lemma SweptRowIsStillQueued(s: State, t: TxnId, sid: SessionId)
    requires Inv(s) && t in s.txns && s.txns[t].stage.Sweeping? && sid in s.txns[t].stage.todo
    ensures sid in s.sessions && s.sessions[sid].status == Queued
    ensures Escalated(s, s.txns[t], sid).sessions == s.txns[t].sessions[sid := ClosedAs(s.sessions[sid], TimedOut, s.now)]
  {
    SweptRowIsQueued(s, s.txns[t], sid);
  }

  lemma SweptRowIsQueued(s: State, x: Txn, sid: SessionId)
    requires TxnOk(s, x) && x.stage.Sweeping? && sid in x.stage.todo
    ensures sid in s.sessions && s.sessions[sid].status == Queued
  {
    assert sid in x.sessionLocks;
  }

  /** A session the sweep has yet to escalate, as every reachable state has it. */
  predicate ReadyToEscalate(s: State, x: Txn, sid: SessionId) {
    && x.stage.Sweeping? && SweepOk(s, x, x.stage.todo) && sid in x.stage.todo
    && CommittedOk(s) && sid in s.sessions && s.sessions[sid].status == Queued
    && s.sessions[sid].conversation in s.conversations && s.conversations[s.sessions[sid].conversation] != Active
  }

  lemma ToDoIsReady(s: State, x: Txn, sid: SessionId)
    requires CommittedOk(s) && TxnOk(s, x) && x.stage.Sweeping? && sid in x.stage.todo
    ensures ReadyToEscalate(s, x, sid)
  {
    SweptRowIsQueued(s, x, sid);
    assert RowOk(s, sid);
  }

  lemma NobodyElseHasIt(s: State, x: Txn, sid: SessionId)
    requires x.stage.Sweeping? && SweepOk(s, x, x.stage.todo) && sid in x.stage.todo && OneOpenEach(s.sessions)
    ensures sid in s.sessions && !HasOpenTicket(x.tickets, s.sessions[sid].conversation)
  {
    forall k | k in x.tickets ensures x.tickets[k].conversation != s.sessions[sid].conversation {
      assert NewTicket(s, x, k) && k in x.sessionLocks && sid in x.sessionLocks;
      OpenOnesDiffer(s.sessions, k, sid);
    }
  }

  /** What `y` adds to the sweep `x` by escalating `sid`. */
  predicate EscalatesTo(s: State, x: Txn, sid: SessionId, y: Txn)
    requires sid in s.sessions && x.stage.Sweeping?
  {
    var row := s.sessions[sid];
    && y.stage == Sweeping(x.stage.todo - {sid})
    && y.sessionLocks == x.sessionLocks
    && y.conversationLocks == x.conversationLocks + {row.conversation}
    && y.sessions == x.sessions[sid := ClosedAs(row, TimedOut, s.now)]
    && y.conversations == x.conversations[row.conversation := Active]
    && y.escalated == x.escalated + multiset{sid}
    && y.tickets == if HasOpenTicket(s.tickets, row.conversation) then x.tickets else x.tickets[sid := Ticket(row.conversation, true)]
  }

  /** The sweep `x` has not touched `sid` yet. */
  predicate NotYet(s: State, x: Txn, sid: SessionId) {
    && x.stage.Sweeping? && SweepOk(s, x, x.stage.todo) && sid in x.stage.todo
    && sid !in x.sessions && sid !in x.tickets && sid !in x.escalated
    && sid in s.sessions && FieldsMatch(s.sessions[sid]) && s.sessions[sid].status == Queued
    && s.sessions[sid].conversation in s.conversations
  }

  lemma ReadyEscalates(s: State, x: Txn, sid: SessionId)
    requires ReadyToEscalate(s, x, sid)
    ensures EscalatesTo(s, x, sid, Escalated(s, x, sid))
  {
    RaisedUnlessOpen(s, x, sid);
  }

  lemma RaisedUnlessOpen(s: State, x: Txn, sid: SessionId)
    requires ReadyToEscalate(s, x, sid)
    ensures
      var c := s.sessions[sid].conversation;
      RaisedIn(s.tickets, x.tickets, sid, c) ==
        if HasOpenTicket(s.tickets, c) then x.tickets else x.tickets[sid := Ticket(c, true)]
  {
    NobodyElseHasIt(s, x, sid);
    TicketsAreNew(s, x);
    OpenInEither(s.tickets, x.tickets, s.sessions[sid].conversation);
  }

  /** After its escalation a session's conversation has an open ticket, raised for that session exactly
      when none was open before. */
  lemma EscalationHasTicket(s: State, x: Txn, sid: SessionId)
    requires ReadyToEscalate(s, x, sid)
    ensures
      var c, y := s.sessions[sid].conversation, Escalated(s, x, sid);
      && (HasOpenTicket(s.tickets, c) || HasOpenTicket(y.tickets, c))
      && (sid in y.tickets <==> !HasOpenTicket(s.tickets, c))
  {
    var y := Escalated(s, x, sid);
    ReadyEscalates(s, x, sid);
    if sid in y.tickets { assert y.tickets[sid] == Ticket(s.sessions[sid].conversation, true); }
  }

  lemma EscalateKeepsRow(s: State, x: Txn, sid: SessionId, y: Txn, k: SessionId)
    requires NotYet(s, x, sid) && EscalatesTo(s, x, sid, y) && k in y.sessions
    ensures SweptRow(s, y, k)
  {
    if k != sid {
      assert SweptRow(s, x, k);
      assert TicketsLast(x.tickets, y.tickets);
      TicketStays(s.(tickets := x.tickets), s.(tickets := y.tickets), s.sessions[k].conversation);
    } else if HasOpenTicket(s.tickets, s.sessions[sid].conversation) {
      assert HasTicket(s.tickets, s.sessions[sid].conversation);
    } else {
      assert y.tickets[sid].conversation == s.sessions[sid].conversation;
    }
  }

  lemma EscalateKeepsTicket(s: State, x: Txn, sid: SessionId, y: Txn, k: SessionId)
    requires NotYet(s, x, sid) && EscalatesTo(s, x, sid, y) && k in y.tickets
    ensures NewTicket(s, y, k)
  {
    if k in x.tickets { assert NewTicket(s, x, k); }
  }

  lemma EscalateKeepsLocks(s: State, x: Txn, sid: SessionId, y: Txn)
    requires NotYet(s, x, sid) && EscalatesTo(s, x, sid, y)
    ensures SweepHolds(s, y, x.stage.todo - {sid})
  {
    assert y.sessions.Keys == y.sessionLocks - y.stage.todo;
    forall c | c in y.conversations ensures HandsBack(s, y, c) {
      if c in x.conversations {
        assert HandsBack(s, x, c);
        var k :| k in x.sessions && k in s.sessions && s.sessions[k].conversation == c;
        assert k in y.sessions;
      } else {
        assert sid in y.sessions;
      }
    }
  }

  lemma EscalateKeepsOk(s: State, x: Txn, sid: SessionId)
    requires ReadyToEscalate(s, x, sid)
    ensures TxnOk(s, Escalated(s, x, sid))
  {
    var y := Escalated(s, x, sid);
    ReadyEscalates(s, x, sid);
    forall k | k in y.escalated ensures RaisedOnce(y, k) {
      if k != sid { assert k in x.escalated; assert RaisedOnce(x, k); }
    }
    forall k | k in y.sessions ensures SweptRow(s, y, k) {
      EscalateKeepsRow(s, x, sid, y, k);
    }
    forall k | k in y.tickets ensures NewTicket(s, y, k) {
      EscalateKeepsTicket(s, x, sid, y, k);
    }
    EscalateKeepsLocks(s, x, sid, y);
    assert SweepOk(s, y, y.stage.todo);
  }

  lemma BeginEnqueueKeepsInv(s: State, t: TxnId, c: ConversationId)
    requires Inv(s) && Enabled(s, BeginEnqueue(t, c))
    ensures Inv(Apply(s, BeginEnqueue(t, c)))
  {
    BeginKeepsInv(s, t, Fresh(Enqueuing(c)).(conversationLocks := {c}, conversations := map[c := Transferred]));
  }

  lemma RollbackKeepsInv(s: State, t: TxnId)
    requires Inv(s) && t in s.txns
    ensures Inv(s.(txns := s.txns - {t}))
  {
    SameTablesKeepInv(s, s.(txns := s.txns - {t}));
  }

  lemma ClaimKeepsInv(s: State, t: TxnId, sid: SessionId, who: StaffId)
    requires Inv(s) && Enabled(s, Claim(t, sid, who))
    ensures Inv(Apply(s, Claim(t, sid, who)))
  {
    assert RowOk(s, sid);
    BeginKeepsInv(s, t, Fresh(Claiming(sid)).(sessionLocks := {sid}, sessions := map[sid := ClaimedBy(s.sessions[sid], who, s.now)]));
  }

  lemma ClosedTxnOk(s: State, x: Txn)
    requires x.stage.Resolving? && TxnOk(s, x) && x.stage.s in s.sessions && s.sessions[x.stage.s].status == Claimed
    requires FieldsMatch(s.sessions[x.stage.s])
    ensures TxnOk(s, ClosedTxn(s, x))
  {
  }

  lemma ClosedKeepsInv(s: State, t: TxnId, x: Txn)
    requires Inv(s) && x.stage.Resolving? && TxnOk(s, x) && !SessionLocked(s, x.stage.s)
    requires x.stage.s in s.sessions && s.sessions[x.stage.s].status == Claimed
    ensures Inv(Begin(s, t, ClosedTxn(s, x)))
  {
    assert RowOk(s, x.stage.s);
    ClosedTxnOk(s, x);
    forall u | u in s.txns && u != t ensures Apart(s, ClosedTxn(s, x), s.txns[u]) {
      assert x.stage.s !in s.txns[u].sessionLocks;
    }
    BeginKeepsInv(s, t, ClosedTxn(s, x));
  }

  lemma CloseKeepsInv(s: State, t: TxnId)
    requires Inv(s) && Enabled(s, CloseClaimed(t))
    ensures Inv(Apply(s, CloseClaimed(t)))
  {
    var x := s.txns[t];
    if x.stage.s in s.sessions && s.sessions[x.stage.s].status == Claimed {
      ClosedKeepsInv(s, t, x);
    } else {
      RollbackKeepsInv(s, t);
    }
  }

  lemma ReleaseKeepsInv(s: State, t: TxnId)
    requires Inv(s) && Enabled(s, ReleaseConversation(t))
    ensures Inv(Apply(s, ReleaseConversation(t)))
  {
    var x := s.txns[t];
    assert TxnOk(s, x) && Issued(s, x);
    assert RowOk(s, x.stage.s);
    forall u | u in s.txns && u != t ensures Apart(s, Released(s, x), s.txns[u]) {
      assert Apart(s, x, s.txns[u]);
    }
    BeginKeepsInv(s, t, Released(s, x));
  }

  /** Some other transaction is about to transfer the conversation of the session that `t` has closed. */
  predicate Relied(s: State, t: TxnId, u: TxnId)
    requires t in s.txns && s.txns[t].stage.Unassigned? && s.txns[t].stage.s in s.sessions
  {
    u in s.txns && s.txns[u].stage == Enqueued(ClosedIn(s, s.txns[t]))
  }

  /** A status write that is skipped must not meet such a transaction. */
  predicate SafeSkip(s: State, l: Label) {
    l.SkipRelease? && Enabled(s, l) ==> forall u <- s.txns :: !Relied(s, l.t, u)
  }

  lemma SkipKeepsInv(s: State, t: TxnId)
    requires Inv(s) && Enabled(s, SkipRelease(t)) && SafeSkip(s, SkipRelease(t))
    ensures Inv(Apply(s, SkipRelease(t)))
  {
    var x := s.txns[t];
    assert TxnOk(s, x) && Issued(s, x);
    forall u | u in s.txns && u != t ensures Apart(s, Skipped(x), s.txns[u]) {
      assert Apart(s, x, s.txns[u]) && !Relied(s, t, u);
    }
    BeginKeepsInv(s, t, Skipped(x));
  }

  lemma CheckKeepsInv(s: State, t: TxnId, sid: SessionId, who: StaffId, to: Status, next: ConversationStatus)
    requires Inv(s) && Enabled(s, CheckAssignee(t, sid, who, to, next))
    ensures Inv(Apply(s, CheckAssignee(t, sid, who, to, next)))
  {
    BeginKeepsInv(s, t, Fresh(Resolving(sid, to, next)));
  }

  lemma BeginSweepKeepsInv(s: State, t: TxnId)
    requires Inv(s) && Enabled(s, BeginSweep(t))
    ensures Inv(Apply(s, BeginSweep(t)))
  {
    assert forall sid <- ExpiredIn(s) :: RowOk(s, sid);
    BeginKeepsInv(s, t, Fresh(Sweeping(ExpiredIn(s))).(sessionLocks := ExpiredIn(s)));
  }

  lemma EscalateKeepsInv(s: State, t: TxnId, sid: SessionId)
    requires Inv(s) && Enabled(s, Escalate(t, sid))
    ensures Inv(Apply(s, Escalate(t, sid)))
  {
    var x := s.txns[t];
    assert TxnOk(s, x) && Issued(s, x);
    ToDoIsReady(s, x, sid);
    EscalateKeepsOk(s, x, sid);
    forall u | u in s.txns && u != t ensures Apart(s, Escalated(s, x, sid), s.txns[u]) {
      assert Apart(s, x, s.txns[u]);
    }
    assert sid in x.sessionLocks;
    BeginKeepsInv(s, t, Escalated(s, x, sid));
  }

  lemma CommitKeepsApart(s: State, x: Txn, y: Txn, z: Txn)
    requires LeavesAlone(s, Committed(s, x), y) && LeavesAlone(s, Committed(s, x), z)
    requires TxnOk(s, y) && TxnOk(s, z) && Apart(s, y, z)
    ensures Apart(Committed(s, x), y, z)
  {
  }

  lemma CommitKeepsIssued(s: State, x: Txn, y: Txn)
    requires CommittedOk(s) && TxnOk(s, x) && TxnOk(s, y) && CanCommit(x) && Apart(s, x, y) && Issued(s, y)
    ensures Issued(Committed(s, x), y)
  {
    forall sid | sid in y.sessions ensures sid in s.sessions || sid !in s.escalations + x.escalated {
      assert sid in y.sessionLocks;
      if sid in x.escalated { EscalatedIsNew(s, x, sid); }
    }
  }

  lemma CommitKeepsInv(s: State, t: TxnId)
    requires Inv(s) && Enabled(s, Commit(t))
    ensures Inv(Apply(s, Commit(t)))
  {
    var x := s.txns[t];
    assert TxnOk(s, x) && Issued(s, x);
    CommitKeepsCommitted(s, x);
    var after := Committed(s, x);
    forall u | u in s.txns && u != t
      ensures LeavesAlone(s, after, s.txns[u]) && TxnOk(after, s.txns[u]) && Issued(after, s.txns[u])
    {
      assert Apart(s, x, s.txns[u]);
      CommitLeavesAlone(s, x, s.txns[u]);
      CommitKeepsIssued(s, x, s.txns[u]);
    }
    forall u, v | u in s.txns && v in s.txns && u != v && u != t && v != t
      ensures Apart(after, s.txns[u], s.txns[v])
    {
      CommitKeepsApart(s, x, s.txns[u], s.txns[v]);
    }
    SameTablesKeepInv(after, after.(txns := s.txns - {t}));
  }

  /** A step of nobody's transaction that leaves every transaction alone. */
  lemma AloneKeepsInv(s: State, s': State)
    requires Inv(s) && CommittedOk(s') && s'.txns == s.txns && s'.issued == s.issued && s'.escalations == s.escalations
    requires forall t <- s.txns :: LeavesAlone(s, s', s.txns[t])
    ensures Inv(s')
  {
    forall u | u in s'.txns ensures TxnOk(s', s'.txns[u]) && Issued(s', s'.txns[u]) {
      var y := s.txns[u];
      assert TxnOk(s, y) && Issued(s, y);
      LeftAloneStaysOk(s, s', y);
      assert forall sid <- y.sessions :: sid in y.sessionLocks;
    }
    forall u, v | u in s'.txns && v in s'.txns && u != v ensures Apart(s', s'.txns[u], s'.txns[v]) {
      assert Apart(s, s.txns[u], s.txns[v]) && TxnOk(s, s.txns[u]) && TxnOk(s, s.txns[v]);
    }
  }

  predicate OnConversations(l: Label) { l.Archive? || l.NewConversation? || l.Tick? }

  lemma ConversationStepKeepsInv(s: State, l: Label)
    requires Inv(s) && Enabled(s, l) && OnConversations(l)
    ensures Inv(Apply(s, l))
  {
    var s' := Apply(s, l);
    SameCommittedRows(s, s');
    forall t | t in s.txns ensures LeavesAlone(s, s', s.txns[t]) {
      ConversationStepLeavesAlone(s, l, s.txns[t]);
    }
    AloneKeepsInv(s, s');
  }

  lemma ConversationStepLeavesAlone(s: State, l: Label, y: Txn)
    requires CommittedOk(s) && TxnOk(s, y) && Enabled(s, l) && OnConversations(l)
    ensures LeavesAlone(s, Apply(s, l), y)
  {
    forall sid | sid in y.sessionLocks ensures sid in s.sessions ==> s.sessions[sid].conversation in s.conversations {
      assert RowOk(s, sid);
    }
    TxnKnowsItsConversations(s, y);
  }

  lemma TxnKnowsItsConversations(s: State, y: Txn)
    requires CommittedOk(s) && TxnOk(s, y)
    ensures y.conversationLocks <= s.conversations.Keys
  {
    if y.stage.Sweeping? {
      forall c | c in y.conversationLocks ensures c in s.conversations { assert HandsBack(s, y, c); }
    } else if y.stage.Resolved'? {
      assert RowOk(s, y.stage.s);
    }
  }

  // ---- Deleting a conversation, closing and reopening tickets ----

  lemma DeletedKeepsOpen(s: State, c: ConversationId, d: ConversationId)
    requires d != c
    ensures HasOpen(Deleted(s, c).sessions, d) <==> HasOpen(s.sessions, d)
  {
    forall sid ensures IsOpenIn(s.sessions, sid, d) <==> IsOpenIn(Deleted(s, c).sessions, sid, d) {
    }
  }

  lemma DeletedKeepsCommitted(s: State, c: ConversationId)
    requires CommittedOk(s)
    ensures CommittedOk(Deleted(s, c))
  {
    var s' := Deleted(s, c);
    forall sid | sid in s'.sessions ensures RowOk(s', sid) { assert RowOk(s, sid); }
    forall d | d in s'.conversations && s'.conversations[d] == Transferred ensures HasOpen(s'.sessions, d) {
      DeletedKeepsOpen(s, c, d);
    }
    forall i, j | i in s'.sessions && j in s'.sessions && SameOpen(s'.sessions[i], s'.sessions[j]) ensures i == j {
      assert SameOpen(s.sessions[i], s.sessions[j]);
    }
    forall sid | sid in s'.escalations ensures EscalationOk(s', sid) { assert EscalationOk(s, sid); }
    forall k | k in s'.tickets ensures TicketOk(s', k) { assert TicketOk(s, k); }
  }

  /** Whoever is at work on the conversation or on one of its sessions keeps it from being deleted. */
  lemma DeleteLeavesAlone(s: State, c: ConversationId, t: TxnId)
    requires Inv(s) && Enabled(s, DeleteConversation(c)) && t in s.txns
    ensures LeavesAlone(s, Deleted(s, c), s.txns[t])
  {
    var y := s.txns[t];
    assert TxnOk(s, y);
    if y.stage.Enqueued? { DeletedKeepsOpen(s, c, y.stage.c); }
    forall sid | sid in y.sessionLocks && sid in s.sessions ensures s.sessions[sid].conversation != c {
      assert SessionLocked(s, sid);
    }
  }

  lemma DeleteKeepsInv(s: State, c: ConversationId)
    requires Inv(s) && Enabled(s, DeleteConversation(c))
    ensures Inv(Apply(s, DeleteConversation(c)))
  {
    DeletedKeepsCommitted(s, c);
    forall t | t in s.txns ensures LeavesAlone(s, Deleted(s, c), s.txns[t]) {
      DeleteLeavesAlone(s, c, t);
    }
    AloneKeepsInv(s, Deleted(s, c));
  }

  function Retitled(s: State, k: SessionId, open: bool): State
    requires k in s.tickets
  {
    s.(tickets := s.tickets[k := s.tickets[k].(open := open)])
  }

  lemma TicketStepKeepsCommitted(s: State, k: SessionId, open: bool)
    requires CommittedOk(s) && k in s.tickets && (open ==> !HasOpenTicket(s.tickets, s.tickets[k].conversation))
    ensures CommittedOk(Retitled(s, k, open))
  {
    var s' := Retitled(s, k, open);
    forall sid | sid in s'.sessions ensures RowOk(s', sid) {
      assert RowOk(s, sid);
      TicketStays(s, s', s.sessions[sid].conversation);
    }
    forall sid | sid in s'.escalations ensures EscalationOk(s', sid) { assert EscalationOk(s, sid); }
    forall j | j in s'.tickets ensures TicketOk(s', j) { assert TicketOk(s, j); }
    assert OneOpenTicketEach(s'.tickets);
  }

  lemma TicketStepLeavesAlone(s: State, k: SessionId, open: bool, y: Txn)
    requires TxnOk(s, y) && k in s.tickets
    requires open ==> !HasOpenTicket(y.tickets, s.tickets[k].conversation)
    ensures LeavesAlone(s, Retitled(s, k, open), y)
  {
    var s' := Retitled(s, k, open);
    forall j | j in y.tickets ensures !HasOpenTicket(s'.tickets, y.tickets[j].conversation) {
      assert NewTicket(s, y, j);
      assert HasOpenTicket(y.tickets, y.tickets[j].conversation);
    }
  }

  lemma TicketStepKeepsInv(s: State, k: SessionId, open: bool)
    requires Inv(s) && k in s.tickets && (open ==> CanReopen(s, k))
    ensures Inv(Retitled(s, k, open))
  {
    TicketStepKeepsCommitted(s, k, open);
    forall t | t in s.txns ensures LeavesAlone(s, Retitled(s, k, open), s.txns[t]) {
      TicketStepLeavesAlone(s, k, open, s.txns[t]);
    }
    AloneKeepsInv(s, Retitled(s, k, open));
  }

  // ---- Runs ----

  /** Steps in which a failing enqueue rolls its transaction back instead of being swallowed, and no
      status write is skipped that somebody relies on. */
  predicate Guarded(s: State, l: Label) {
    !l.SwallowFailure? && SafeSkip(s, l)
  }

  lemma StepKeepsInv(s: State, l: Label)
    requires Inv(s) && Enabled(s, l) && Guarded(s, l)
    ensures Inv(Apply(s, l))
  {
    match l
    case BeginEnqueue(t, c) => BeginEnqueueKeepsInv(s, t, c);
    case InsertSession(t, sid) => InsertKeepsInv(s, t, sid);
    case Claim(t, sid, who) => ClaimKeepsInv(s, t, sid, who);
    case CheckAssignee(t, sid, who, to, next) => CheckKeepsInv(s, t, sid, who, to, next);
    case CloseClaimed(t) => CloseKeepsInv(s, t);
    case ReleaseConversation(t) => ReleaseKeepsInv(s, t);
    case SkipRelease(t) => SkipKeepsInv(s, t);
    case BeginSweep(t) => BeginSweepKeepsInv(s, t);
    case Escalate(t, sid) => EscalateKeepsInv(s, t, sid);
    case Commit(t) => CommitKeepsInv(s, t);
    case Rollback(t) => RollbackKeepsInv(s, t);
    case DeleteConversation(c) => DeleteKeepsInv(s, c);
    case CloseTicket(k) => TicketStepKeepsInv(s, k, false);
    case ReopenTicket(k) => TicketStepKeepsInv(s, k, true);
    case _ => ConversationStepKeepsInv(s, l);
  }

  predicate IsRun(s: State, run: seq<Label>)
    decreases |run|
  {
    run == [] || (Guarded(s, run[0]) && Enabled(s, run[0]) && IsRun(Apply(s, run[0]), run[1..]))
  }

  function Final(s: State, run: seq<Label>): State
    requires IsRun(s, run)
    decreases |run|
  {
    if run == [] then s else Final(Apply(s, run[0]), run[1..])
  }

  lemma {:induction false} RunKeepsInv(s: State, run: seq<Label>)
    requires Inv(s) && IsRun(s, run)
    ensures Inv(Final(s, run))
    decreases |run|
  {
    if run != [] {
      StepKeepsInv(s, run[0]);
      RunKeepsInv(Apply(s, run[0]), run[1..]);
    }
  }

  ghost predicate Reachable(s: State) {
    exists run :: IsRun(EMPTY, run) && Final(EMPTY, run) == s
  }

  lemma ReachableInv(s: State)
    requires Reachable(s)
    ensures Inv(s)
  {
    var run :| IsRun(EMPTY, run) && Final(EMPTY, run) == s;
    RunKeepsInv(EMPTY, run);
  }

  /** In every reachable state a transferred conversation has exactly one open session, every
      conversation has at most one, and each session's fields fit its status. */
  lemma TransferredHasExactlyOneOpenSession(s: State, c: ConversationId)
    requires Reachable(s) && c in s.conversations
    ensures s.conversations[c] == Transferred ==>
      exists sid <- s.sessions :: s.sessions[sid].conversation == c && s.sessions[sid].status in {Queued, Claimed}
    ensures forall i, j | i in s.sessions && j in s.sessions && s.sessions[i].conversation == s.sessions[j].conversation
                          && s.sessions[i].status in {Queued, Claimed} && s.sessions[j].status in {Queued, Claimed} :: i == j
    ensures forall sid <- s.sessions ::
      && (s.sessions[sid].assignee.Some? <==> s.sessions[sid].status in {Claimed, Resolved, Returned})
      && (s.sessions[sid].claimedAt.Some? <==> s.sessions[sid].status in {Claimed, Resolved, Returned})
      && (s.sessions[sid].closedAt.Some? <==> s.sessions[sid].status in {Resolved, Returned, TimedOut})
  {
    ReachableInv(s);
    assert forall i, j | i in s.sessions && j in s.sessions && SameOpen(s.sessions[i], s.sessions[j]) :: i == j;
    assert forall sid <- s.sessions :: RowOk(s, sid);
  }

  /** Every session has its conversation, and an open one has it in nobody's hands but the staff's: what
      the program does for a session whose conversation is gone never happens. */
  lemma SessionsHaveTheirConversation(s: State, sid: SessionId)
    requires Reachable(s) && sid in s.sessions
    ensures s.sessions[sid].conversation in s.conversations
    ensures s.sessions[sid].status in {Queued, Claimed} ==> s.conversations[s.sessions[sid].conversation] != Active
  {
    ReachableInv(s);
    assert RowOk(s, sid);
  }

  /** However many sweepers and claimers run at once, a session is escalated at most once, and an
      escalated session was never claimed by anybody. */
  lemma EscalatedOnceAndNeverClaimed(s: State, sid: SessionId)
    requires Reachable(s) && sid in s.escalations
    ensures s.escalations[sid] == 1
    ensures sid in s.sessions ==> s.sessions[sid].status == TimedOut
    ensures sid in s.sessions ==> s.sessions[sid].assignee == None && s.sessions[sid].claimedAt == None
  {
    ReachableInv(s);
    assert EscalationOk(s, sid) && RowOk(s, sid);
  }

  /** No expired session is lost: timed out means escalated, exactly once, and then its conversation has
      a ticket. */
  lemma TimedOutIffEscalated(s: State, sid: SessionId)
    requires Reachable(s) && sid in s.sessions
    ensures s.sessions[sid].status == TimedOut <==> s.escalations[sid] == 1
    ensures s.sessions[sid].status == TimedOut ==> HasTicket(s.tickets, s.sessions[sid].conversation)
  {
    ReachableInv(s);
    assert RowOk(s, sid);
    assert sid in s.escalations ==> EscalationOk(s, sid);
  }

  /** Two open tickets never have the same title, whatever sweeps, closings and reopenings run at once. */
  lemma AtMostOneOpenTicket(s: State, i: SessionId, j: SessionId)
    requires Reachable(s) && i in s.tickets && j in s.tickets
    requires s.tickets[i].open && s.tickets[j].open && s.tickets[i].conversation == s.tickets[j].conversation
    ensures i == j
  {
    ReachableInv(s);
    assert s.tickets[i] == s.tickets[j];
  }

  /** At the moment a session is escalated its conversation has an open ticket. It is one of the session's
      own exactly when none was open before; the conversation's row is locked and written. */
  lemma EscalationRaisesTicketIff(s: State, t: TxnId, sid: SessionId)
    requires Reachable(s) && Enabled(s, Escalate(t, sid))
    ensures
      var c, y := s.sessions[sid].conversation, Apply(s, Escalate(t, sid)).txns[t];
      && (HasOpenTicket(s.tickets, c) || HasOpenTicket(y.tickets, c))
      && (sid in y.tickets <==> !HasOpenTicket(s.tickets, c))
      && c in y.conversationLocks && c in y.conversations && y.conversations[c] == Active
  {
    ReachableInv(s);
    var x := s.txns[t];
    assert TxnOk(s, x);
    ToDoIsReady(s, x, sid);
    EscalationHasTicket(s, x, sid);
    ReadyEscalates(s, x, sid);
  }

  // ---- What becomes of a session ----

  /** The moves a committed row may make: queued to claimed or timed out, claimed to resolved or
      returned, the assignee never replaced. */
  predicate Legal(was: Session, row: Session) {
    || row == was
    || (was.status == Queued && row.status in {Claimed, TimedOut})
    || (was.status == Claimed && row.status in {Resolved, Returned}
        && row.assignee == was.assignee && row.claimedAt == was.claimedAt)
  }

  /** The session has been deleted with its conversation, and nobody is about to bring it back. */
  predicate Gone(s: State, sid: SessionId) {
    sid in s.issued && sid !in s.sessions && forall t <- s.txns :: sid !in s.txns[t].sessions
  }

  lemma CommitMovesLegally(s: State, x: Txn, sid: SessionId)
    requires TxnOk(s, x) && CanCommit(x) && sid in s.sessions && sid in x.sessions && FieldsMatch(s.sessions[sid])
    ensures Legal(s.sessions[sid], x.sessions[sid])
  {
    assert x.stage.Sweeping? ==> SweptRow(s, x, sid) && sid in x.sessionLocks;
  }

  lemma DeletedIsGone(s: State, sid: SessionId)
    requires Inv(s) && sid in s.sessions && Enabled(s, DeleteConversation(s.sessions[sid].conversation))
    ensures Gone(Deleted(s, s.sessions[sid].conversation), sid)
  {
    assert RowOk(s, sid) && !SessionLocked(s, sid);
    forall t | t in s.txns ensures sid !in s.txns[t].sessions {
      assert TxnOk(s, s.txns[t]) && sid !in s.txns[t].sessionLocks;
    }
  }

  /** A session makes a legal move or none, unless it is deleted with its conversation. */
  lemma RowsMoveLegally(s: State, l: Label, sid: SessionId)
    requires Inv(s) && Enabled(s, l) && sid in s.sessions
    ensures
      if l == DeleteConversation(s.sessions[sid].conversation) then Gone(Apply(s, l), sid)
      else sid in Apply(s, l).sessions && Legal(s.sessions[sid], Apply(s, l).sessions[sid])
  {
    if l == DeleteConversation(s.sessions[sid].conversation) {
      DeletedIsGone(s, sid);
    } else if l.Commit? {
      var x := s.txns[l.t];
      assert RowOk(s, sid) && TxnOk(s, x);
      if sid in x.sessions { CommitMovesLegally(s, x, sid); }
    } else if !l.DeleteConversation? {
      OnlyCommitsWrite(s, l);
    }
  }

  lemma OnlyCommitsWrite(s: State, l: Label)
    requires Enabled(s, l) && !l.Commit? && !l.DeleteConversation?
    ensures Apply(s, l).sessions == s.sessions
  {
  }

  /** The session that a step may make its transaction write. */
  predicate Touches(s: State, l: Label, sid: SessionId) {
    match l
    case InsertSession(_, k) => k == sid && sid !in s.issued
    case Claim(_, k, _) => k == sid && sid in s.sessions
    case CloseClaimed(t) => t in s.txns && s.txns[t].stage.Resolving? && s.txns[t].stage.s == sid && sid in s.sessions
    case Escalate(_, k) => k == sid && sid in s.sessions
    case _ => false
  }

  lemma OthersStayUnwritten(s: State, l: Label, sid: SessionId)
    requires Enabled(s, l) && !Touches(s, l, sid) && forall t <- s.txns :: sid !in s.txns[t].sessions
    ensures forall t <- Apply(s, l).txns :: sid !in Apply(s, l).txns[t].sessions
  {
  }

  lemma StepKeepsGone(s: State, l: Label, sid: SessionId)
    requires Enabled(s, l) && Gone(s, sid)
    ensures Gone(Apply(s, l), sid)
  {
    OthersStayUnwritten(s, l, sid);
    if !l.Commit? && !l.DeleteConversation? { OnlyCommitsWrite(s, l); }
  }

  lemma {:induction false} GoneStaysGone(s: State, run: seq<Label>, sid: SessionId)
    requires IsRun(s, run) && Gone(s, sid)
    ensures Gone(Final(s, run), sid)
    decreases |run|
  {
    if run != [] {
      StepKeepsGone(s, run[0], sid);
      GoneStaysGone(Apply(s, run[0]), run[1..], sid);
    }
  }

  /** Resolved, returned and timed-out are final: nothing changes such a session again, and it goes only
      with its conversation, and then for good. */
  lemma {:induction false} ClosedSessionsNeverChange(s: State, run: seq<Label>, sid: SessionId)
    requires Inv(s) && IsRun(s, run) && sid in s.sessions && !IsOpen(s.sessions[sid])
    ensures if DeleteConversation(s.sessions[sid].conversation) in run then Gone(Final(s, run), sid)
            else sid in Final(s, run).sessions && Final(s, run).sessions[sid] == s.sessions[sid]
    decreases |run|
  {
    if run != [] {
      RowsMoveLegally(s, run[0], sid);
      StepKeepsInv(s, run[0]);
      if run[0] == DeleteConversation(s.sessions[sid].conversation) {
        GoneStaysGone(Apply(s, run[0]), run[1..], sid);
      } else {
        ClosedSessionsNeverChange(Apply(s, run[0]), run[1..], sid);
      }
    }
  }

  /** A claim names its staff member for good: no later step hands the session to somebody else. */
  lemma {:induction false} ClaimIsForGood(s: State, run: seq<Label>, sid: SessionId)
    requires Inv(s) && IsRun(s, run) && sid in s.sessions && s.sessions[sid].assignee.Some?
    ensures
      || Gone(Final(s, run), sid)
      || (sid in Final(s, run).sessions
          && Final(s, run).sessions[sid].assignee == s.sessions[sid].assignee
          && Final(s, run).sessions[sid].claimedAt == s.sessions[sid].claimedAt)
    decreases |run|
  {
    if run != [] {
      assert RowOk(s, sid);
      RowsMoveLegally(s, run[0], sid);
      StepKeepsInv(s, run[0]);
      if run[0] == DeleteConversation(s.sessions[sid].conversation) {
        GoneStaysGone(Apply(s, run[0]), run[1..], sid);
      } else {
        ClaimIsForGood(Apply(s, run[0]), run[1..], sid);
      }
    }
  }
}
