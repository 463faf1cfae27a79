/** The human handoff protocol: sessions and conversations changed by concurrent database
    transactions. A transaction keeps its row locks and its writes to itself until it commits. */
module Handoff {
  import opened Wrappers

  type SessionId = nat
  type ConversationId = nat
  type StaffId = nat
  type TxnId = nat

  datatype Status = Queued | Claimed | Resolved | Returned | TimedOut

  datatype ConversationStatus = Active | Transferred | Closed

  datatype Session = Session(
    conversation: ConversationId, status: Status, assignee: Option<StaffId>,
    claimedAt: Option<nat>, closedAt: Option<nat>, createdAt: nat)

  const PICKUP_TIMEOUT := 10

  predicate IsOpen(s: Session) {
    s.status == Queued || s.status == Claimed
  }

  predicate Expired(s: Session, now: nat) {
    s.status == Queued && s.createdAt + PICKUP_TIMEOUT < now
  }

  function NewSession(c: ConversationId, now: nat): Session {
    Session(c, Queued, None, None, None, now)
  }

  function ClaimedBy(s: Session, who: StaffId, now: nat): Session {
    s.(status := Claimed, assignee := Some(who), claimedAt := Some(now))
  }

  function ClosedAs(s: Session, status: Status, now: nat): Session {
    s.(status := status, closedAt := Some(now))
  }

  /** The assignee and the two timestamps say exactly what the status says. */
  predicate FieldsMatch(s: Session) {
    && (s.assignee.Some? <==> s.status in {Claimed, Resolved, Returned})
    && (s.claimedAt.Some? <==> s.status in {Claimed, Resolved, Returned})
    && (s.closedAt.Some? <==> s.status in {Resolved, Returned, TimedOut})
  }

  /** The follow-up ticket of a timed-out session. Its title names the conversation, and two open tickets
      never have the same title. */
  datatype Ticket = Ticket(conversation: ConversationId, open: bool)

  // ---- Transactions ----

  /** How far a transaction has come. */
  datatype Stage =
    | Enqueuing(c: ConversationId)
    | Enqueued(c: ConversationId)
    | Claiming(s: SessionId)
    | Resolving(s: SessionId, to: Status, next: ConversationStatus)
    | Unassigned(s: SessionId, next: ConversationStatus)
    | Resolved'(s: SessionId)
    | Sweeping(todo: set<SessionId>)

  /** What a transaction has locked and written. A ticket goes by the session that it was raised for. */
  datatype Txn = Txn(
    stage: Stage,
    sessionLocks: set<SessionId>,
    conversationLocks: set<ConversationId>,
    sessions: map<SessionId, Session>,
    conversations: map<ConversationId, ConversationStatus>,
    escalated: multiset<SessionId>,
    tickets: map<SessionId, Ticket>)

  /** The committed tables, the sessions escalated so far, the session ids ever given out, and the
      open transactions. */
  datatype State = State(
    now: nat,
    sessions: map<SessionId, Session>,
    conversations: map<ConversationId, ConversationStatus>,
    escalations: multiset<SessionId>,
    tickets: map<SessionId, Ticket>,
    issued: set<SessionId>,
    txns: map<TxnId, Txn>)

  datatype Label =
    | BeginEnqueue(t: TxnId, c: ConversationId)
    | InsertSession(t: TxnId, s: SessionId)
    | SwallowFailure(t: TxnId)
    | Claim(t: TxnId, s: SessionId, who: StaffId)
    | CheckAssignee(t: TxnId, s: SessionId, who: StaffId, to: Status, next: ConversationStatus)
    | CloseClaimed(t: TxnId)
    | ReleaseConversation(t: TxnId)
    | SkipRelease(t: TxnId)
    | BeginSweep(t: TxnId)
    | Escalate(t: TxnId, s: SessionId)
    | Commit(t: TxnId)
    | Rollback(t: TxnId)
    | Archive(c: ConversationId)
    | NewConversation(c: ConversationId)
    | DeleteConversation(c: ConversationId)
    | CloseTicket(k: SessionId)
    | ReopenTicket(k: SessionId)
    | Tick(minutes: nat)

  predicate SessionLocked(s: State, sid: SessionId) {
    exists t :: t in s.txns && sid in s.txns[t].sessionLocks
  }

  /** Some transaction other than `t` has locked the conversation's row. */
  predicate ConversationLocked(s: State, c: ConversationId, t: TxnId) {
    exists u :: u in s.txns && u != t && c in s.txns[u].conversationLocks
  }

  predicate IsOpenIn(sessions: map<SessionId, Session>, sid: SessionId, c: ConversationId) {
    sid in sessions && IsOpen(sessions[sid]) && sessions[sid].conversation == c
  }

  predicate HasOpen(sessions: map<SessionId, Session>, c: ConversationId) {
    exists sid <- sessions :: IsOpenIn(sessions, sid, c)
  }

  /** The open session that an insert would collide with is being rewritten by another transaction. */
  predicate OpenIsBusy(s: State, c: ConversationId) {
    exists sid, t :: IsOpenIn(s.sessions, sid, c) && t in s.txns && sid in s.txns[t].sessions
  }

  predicate HasOpenTicket(tickets: map<SessionId, Ticket>, c: ConversationId) {
    exists k <- tickets :: tickets[k] == Ticket(c, true)
  }

  /** Some transaction other than `t` has an uncommitted open ticket with this title. */
  predicate TicketUnderway(s: State, c: ConversationId, t: TxnId) {
    exists u :: u in s.txns && u != t && HasOpenTicket(s.txns[u].tickets, c)
  }

  /** The conversation of the session that a transaction has closed. */
  function ClosedIn(s: State, x: Txn): ConversationId
    requires x.stage.Unassigned? && x.stage.s in s.sessions
  {
    s.sessions[x.stage.s].conversation
  }

  predicate CanCommit(x: Txn) {
    x.stage.Enqueued? || x.stage.Claiming? || x.stage.Resolved'? || (x.stage.Sweeping? && x.stage.todo == {})
  }

  /** Nobody else works on the conversation or on one of its sessions. */
  predicate Untouched(s: State, c: ConversationId) {
    && (forall t <- s.txns :: c !in s.txns[t].conversationLocks)
    && (forall sid <- s.sessions :: s.sessions[sid].conversation == c ==> !SessionLocked(s, sid))
  }

  predicate CanReopen(s: State, k: SessionId) {
    && k in s.tickets
    && !HasOpenTicket(s.tickets, s.tickets[k].conversation)
    && forall t <- s.txns :: !HasOpenTicket(s.txns[t].tickets, s.tickets[k].conversation)
  }

  predicate CanEscalate(s: State, t: TxnId, sid: SessionId) {
    && t in s.txns && s.txns[t].stage.Sweeping? && sid in s.txns[t].stage.todo && sid in s.sessions
    && var c := s.sessions[sid].conversation;
      && !TicketUnderway(s, c, t)
      && (c in s.conversations && s.conversations[c] != Active ==> !ConversationLocked(s, c, t))
  }

  predicate Enabled(s: State, l: Label) {
    match l
    case BeginEnqueue(t, c) => t !in s.txns && c in s.conversations && !ConversationLocked(s, c, t)
    case InsertSession(t, sid) =>
      t in s.txns && s.txns[t].stage.Enqueuing? && sid !in s.issued && !OpenIsBusy(s, s.txns[t].stage.c)
    case SwallowFailure(t) => t in s.txns && s.txns[t].stage.Enqueuing?
    case Claim(t, sid, _) =>
      t !in s.txns && sid in s.sessions && s.sessions[sid].status == Queued && !SessionLocked(s, sid)
    case CheckAssignee(t, sid, who, to, next) =>
      && t !in s.txns && sid in s.sessions
      && s.sessions[sid].status == Claimed && s.sessions[sid].assignee == Some(who)
      && (to == Resolved || to == Returned) && (next == Active || next == Closed)
    case CloseClaimed(t) =>
      t in s.txns && s.txns[t].stage.Resolving? && !SessionLocked(s, s.txns[t].stage.s)
    case ReleaseConversation(t) =>
      t in s.txns && s.txns[t].stage.Unassigned? && s.txns[t].stage.s in s.sessions
      && !ConversationLocked(s, ClosedIn(s, s.txns[t]), t)
    case SkipRelease(t) =>
      t in s.txns && s.txns[t].stage.Unassigned? && s.txns[t].stage.s in s.sessions
      && ClosedIn(s, s.txns[t]) in s.conversations && s.conversations[ClosedIn(s, s.txns[t])] == s.txns[t].stage.next
    case BeginSweep(t) => t !in s.txns
    case Escalate(t, sid) => CanEscalate(s, t, sid)
    case Commit(t) => t in s.txns && CanCommit(s.txns[t])
    case Rollback(t) => t in s.txns
    case Archive(c) => c in s.conversations && forall t <- s.txns :: c !in s.txns[t].conversationLocks
    case NewConversation(c) => c !in s.conversations
    case DeleteConversation(c) => c in s.conversations && Untouched(s, c)
    case CloseTicket(k) => k in s.tickets
    case ReopenTicket(k) => CanReopen(s, k)
    case Tick(_) => true
  }

  function Begin(s: State, t: TxnId, x: Txn): State {
    s.(txns := s.txns[t := x])
  }

  /** Insert-or-find: a queued session is inserted unless the conversation has an open one. */
  function Inserted(s: State, x: Txn, sid: SessionId): Txn
    requires x.stage.Enqueuing?
  {
    var c := x.stage.c;
    if HasOpen(s.sessions, c) then x.(stage := Enqueued(c))
    else x.(stage := Enqueued(c), sessionLocks := x.sessionLocks + {sid},
            sessions := x.sessions[sid := NewSession(c, s.now)])
  }

  /** Insert-or-find: a ticket is raised for the session unless one with its title is open. */
  function RaisedIn(tickets: map<SessionId, Ticket>, mine: map<SessionId, Ticket>, sid: SessionId, c: ConversationId)
    : map<SessionId, Ticket>
  {
    if HasOpenTicket(tickets + mine, c) then mine else mine[sid := Ticket(c, true)]
  }

  /** One expired session: ticket, conditional close whose outcome is not looked at, and the
      conversation handed back, which writes nothing and locks nothing if it is active already;
      without its conversation the session is only closed. */
  function Escalated(s: State, x: Txn, sid: SessionId): Txn
    requires x.stage.Sweeping? && sid in s.sessions
  {
    var row := s.sessions[sid];
    var c := row.conversation;
    var x1 := x.(stage := Sweeping(x.stage.todo - {sid}),
                 sessions := if row.status == Queued then x.sessions[sid := ClosedAs(row, TimedOut, s.now)] else x.sessions);
    if c !in s.conversations then x1
    else
      var x2 := x1.(escalated := x.escalated + multiset{sid}, tickets := RaisedIn(s.tickets, x.tickets, sid, c));
      if s.conversations[c] == Active then x2
      else x2.(conversationLocks := x.conversationLocks + {c}, conversations := x.conversations[c := Active])
  }

  /** The conversation of a closed session is given its next status, if it still exists. */
  function Released(s: State, x: Txn): Txn
    requires x.stage.Unassigned? && x.stage.s in s.sessions
  {
    var c := ClosedIn(s, x);
    x.(stage := Resolved'(x.stage.s), conversationLocks := {c},
       conversations := if c in s.conversations then map[c := x.stage.next] else map[])
  }

  /** The conversation has its next status already: nothing is written and nothing locked. */
  function Skipped(x: Txn): Txn
    requires x.stage.Unassigned?
  {
    x.(stage := Resolved'(x.stage.s))
  }

  /** The write of the next status, as the program makes it. */
  function StatusWrite(s: State, t: TxnId): Label {
    if Enabled(s, SkipRelease(t)) then SkipRelease(t) else ReleaseConversation(t)
  }

  function ClosedTxn(s: State, x: Txn): Txn
    requires x.stage.Resolving? && x.stage.s in s.sessions
  {
    x.(stage := Unassigned(x.stage.s, x.stage.next), sessionLocks := {x.stage.s},
       sessions := map[x.stage.s := ClosedAs(s.sessions[x.stage.s], x.stage.to, s.now)])
  }

  function ExpiredIn(s: State): set<SessionId> {
    set sid | sid in s.sessions && Expired(s.sessions[sid], s.now) && !SessionLocked(s, sid)
  }

  function Fresh(stage: Stage): Txn {
    Txn(stage, {}, {}, map[], map[], multiset{}, map[])
  }

  /** The tables once the transaction's writes are in them. */
  function Committed(s: State, x: Txn): State {
    s.(sessions := s.sessions + x.sessions, conversations := s.conversations + x.conversations,
       escalations := s.escalations + x.escalated, tickets := s.tickets + x.tickets)
  }

  /** A conversation takes its sessions with it; their tickets stay. */
  function Deleted(s: State, c: ConversationId): State {
    s.(conversations := s.conversations - {c},
       sessions := map sid | sid in s.sessions && s.sessions[sid].conversation != c :: s.sessions[sid])
  }

  function Apply(s: State, l: Label): State
    requires Enabled(s, l)
  {
    match l
    case BeginEnqueue(t, c) =>
      Begin(s, t, Fresh(Enqueuing(c)).(conversationLocks := {c}, conversations := map[c := Transferred]))
    case InsertSession(t, sid) => Begin(s.(issued := s.issued + {sid}), t, Inserted(s, s.txns[t], sid))
    case SwallowFailure(t) => Begin(s, t, s.txns[t].(stage := Enqueued(s.txns[t].stage.c)))
    case Claim(t, sid, who) =>
      Begin(s, t, Fresh(Claiming(sid)).(sessionLocks := {sid}, sessions := map[sid := ClaimedBy(s.sessions[sid], who, s.now)]))
    case CheckAssignee(t, sid, who, to, next) => Begin(s, t, Fresh(Resolving(sid, to, next)))
    case CloseClaimed(t) =>
      var sid := s.txns[t].stage.s;
      if sid in s.sessions && s.sessions[sid].status == Claimed then Begin(s, t, ClosedTxn(s, s.txns[t]))
      else s.(txns := s.txns - {t})
    case ReleaseConversation(t) => Begin(s, t, Released(s, s.txns[t]))
    case SkipRelease(t) => Begin(s, t, Skipped(s.txns[t]))
    case BeginSweep(t) => Begin(s, t, Fresh(Sweeping(ExpiredIn(s))).(sessionLocks := ExpiredIn(s)))
    case Escalate(t, sid) => Begin(s, t, Escalated(s, s.txns[t], sid))
    case Commit(t) => Committed(s, s.txns[t]).(txns := s.txns - {t})
    case Rollback(t) => s.(txns := s.txns - {t})
    case Archive(c) => s.(conversations := s.conversations[c := Closed])
    case NewConversation(c) => s.(conversations := s.conversations[c := Active])
    case DeleteConversation(c) => Deleted(s, c)
    case CloseTicket(k) => s.(tickets := s.tickets[k := s.tickets[k].(open := false)])
    case ReopenTicket(k) => s.(tickets := s.tickets[k := s.tickets[k].(open := true)])
    case Tick(minutes) => s.(now := s.now + minutes)
  }

  const EMPTY := State(0, map[], map[], multiset{}, map[], {}, map[])
}
