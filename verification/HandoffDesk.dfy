/** The code that runs inside one handoff transaction: the session table's conditional statements,
    what staff do with them, and the sweep over expired sessions. */
module HandoffDesk {
  import opened Wrappers
  import opened Handoff
  import opened HandoffSafety

  datatype Error = NotFound | Conflict | Forbidden | Unresolved

  // ---- What a sweep leaves behind ----

  function ExpiredRows(rows: map<SessionId, Session>, now: nat, locked: set<SessionId>): set<SessionId> {
    set sid | sid in rows && Expired(rows[sid], now) && sid !in locked
  }

  function SweptRows(rows: map<SessionId, Session>, swept: set<SessionId>, now: nat): map<SessionId, Session> {
    map sid | sid in rows :: if sid in swept then ClosedAs(rows[sid], TimedOut, now) else rows[sid]
  }

  function ConversationsOf(rows: map<SessionId, Session>, swept: set<SessionId>): set<ConversationId> {
    set sid | sid in swept && sid in rows :: rows[sid].conversation
  }

  function WithStatus(conversations: map<ConversationId, ConversationStatus>, c: ConversationId, status: ConversationStatus)
    : map<ConversationId, ConversationStatus>
  {
    if c in conversations then conversations[c := status] else conversations
  }

  function HandedBack(conversations: map<ConversationId, ConversationStatus>, back: set<ConversationId>)
    : map<ConversationId, ConversationStatus>
  {
    map c | c in conversations :: if c in back then Active else conversations[c]
  }

  /** The swept sessions that are escalated: those whose conversation exists. */
  function EscalatedOf(rows: map<SessionId, Session>, conversations: map<ConversationId, ConversationStatus>,
                       swept: set<SessionId>): multiset<SessionId>
  {
    multiset(set sid | sid in swept && sid in rows && rows[sid].conversation in conversations)
  }

  /** A ticket is raised for each of them whose conversation has none open. */
  function RaisedTickets(rows: map<SessionId, Session>, conversations: map<ConversationId, ConversationStatus>,
                         tickets: map<SessionId, Ticket>, swept: set<SessionId>): map<SessionId, Ticket>
  {
    tickets + map sid | sid in swept && sid in rows && rows[sid].conversation in conversations
                        && !HasOpenTicket(tickets, rows[sid].conversation) :: Ticket(rows[sid].conversation, true)
  }

  function CreatedRows(rows: map<SessionId, Session>, c: ConversationId, id: SessionId, now: nat): map<SessionId, Session> {
    if HasOpen(rows, c) then rows else rows[id := NewSession(c, now)]
  }

  predicate Enumerates(order: seq<SessionId>, swept: set<SessionId>) {
    && (forall i, j | 0 <= i < j < |order| :: order[i] != order[j])
    && Members(order) == swept
  }

  function Members(order: seq<SessionId>): set<SessionId> {
    set sid | sid in order
  }

  // ---- The session table ----

  /** What another transaction does to the session found: a queued one times out, a claimed one is resolved or returned. */
  datatype Race = NoRace | Race(returned: bool)

  function ClosedMeanwhile(row: Session, returned: bool, now: nat): Session {
    ClosedAs(row, if row.status == Queued then TimedOut else if returned then Returned else Resolved, now)
  }

  class HandoffRepo {
    var rows: map<SessionId, Session>

    constructor ()
      ensures rows == map[]
    {
      rows := map[];
    }

    /** Inserts a queued session, or returns the open one the conversation already has. With `raced` somebody
        else closes this one before it is read back. */
    method Create(c: ConversationId, id: SessionId, now: nat, raced: Race) returns (r: Result<SessionId, Error>)
      requires id !in rows
      modifies this
      ensures r.Failure? <==> HasOpen(old(rows), c) && raced.Race?
      ensures r.Failure? ==> r.error == Unresolved && exists found <- old(rows) ::
        && IsOpenIn(old(rows), found, c)
        && rows == old(rows)[found := old(rows)[found].(
             status := if old(rows)[found].status == Queued then TimedOut else if raced.returned then Returned else Resolved,
             closedAt := Some(now))]
      ensures r.Success? && HasOpen(old(rows), c) ==> rows == old(rows)
      ensures r.Success? && !HasOpen(old(rows), c) ==> rows == old(rows)[id := Session(c, Queued, None, None, None, now)]
      ensures r.Success? ==> IsOpenIn(rows, r.value, c) && (r.value == id <==> !HasOpen(old(rows), c))
      ensures OneOpenEach(old(rows)) ==> OneOpenEach(rows)
    {
      if !HasOpen(rows, c) {
        rows := rows[id := NewSession(c, now)];
        return Success(id);
      }
      var found :| found in rows && IsOpenIn(rows, found, c);
      match raced
      case NoRace =>
        r := Success(found);
      case Race(returned) =>
        rows := rows[found := ClosedMeanwhile(rows[found], returned, now)];
        r := Failure(Unresolved);
    }

    /** Takes a queued session; everybody else who tries gets None. */
    method Claim(sid: SessionId, who: StaffId, now: nat) returns (r: Option<Session>)
      modifies this
      ensures if sid in old(rows) && old(rows)[sid].status == Queued
              then rows == old(rows)[sid := old(rows)[sid].(status := Claimed, assignee := Some(who), claimedAt := Some(now))]
                   && r == Some(rows[sid])
              else rows == old(rows) && r == None
    {
      r := None;
      if sid in rows && rows[sid].status == Queued {
        rows := rows[sid := ClaimedBy(rows[sid], who, now)];
        r := Some(rows[sid]);
      }
    }

    method Close(sid: SessionId, from: Status, to: Status, now: nat) returns (r: Option<Session>)
      modifies this
      ensures if sid in old(rows) && old(rows)[sid].status == from
              then rows == old(rows)[sid := old(rows)[sid].(status := to, closedAt := Some(now))] && r == Some(rows[sid])
              else rows == old(rows) && r == None
    {
      r := None;
      if sid in rows && rows[sid].status == from {
        rows := rows[sid := ClosedAs(rows[sid], to, now)];
        r := Some(rows[sid]);
      }
    }

    /** The expired sessions nobody else has locked, each once. */
    method SweepExpired(now: nat, locked: set<SessionId>) returns (expired: seq<SessionId>)
      ensures Enumerates(expired, ExpiredRows(rows, now, locked))
      ensures forall sid :: sid in expired <==>
        (sid in rows && sid !in locked && rows[sid].status == Queued && rows[sid].createdAt + PICKUP_TIMEOUT < now)
      ensures |expired| == |ExpiredRows(rows, now, locked)|
    {
      expired := [];
      var rest := ExpiredRows(rows, now, locked);
      while rest != {}
        invariant rest !! Members(expired)
        invariant rest + Members(expired) == ExpiredRows(rows, now, locked)
        invariant forall i, j | 0 <= i < j < |expired| :: expired[i] != expired[j]
        invariant |rest| + |expired| == |ExpiredRows(rows, now, locked)|
        decreases rest
      {
        var sid :| sid in rest;
        assert Members(expired + [sid]) == Members(expired) + {sid};
        expired := expired + [sid];
        rest := rest - {sid};
      }
      assert forall sid :: sid in expired <==> sid in Members(expired);
    }
  }

  // ---- Staff operations and the sweep ----

  /** A session has no ticket before it times out. */
  predicate NoTicketYet(rows: map<SessionId, Session>, tickets: map<SessionId, Ticket>) {
    forall sid <- rows :: rows[sid].status == Queued ==> sid !in tickets
  }

  class Desk {
    const repo: HandoffRepo
    var conversations: map<ConversationId, ConversationStatus>
    var escalated: multiset<SessionId>
    var tickets: map<SessionId, Ticket>

    constructor (repo: HandoffRepo)
      ensures this.repo == repo && conversations == map[] && escalated == multiset{} && tickets == map[]
    {
      this.repo := repo;
      conversations := map[];
      escalated := multiset{};
      tickets := map[];
    }

    /** What the database's unique index and the sweeps themselves keep. */
    ghost predicate Valid()
      reads this, repo
    {
      OneOpenEach(repo.rows) && NoTicketYet(repo.rows, tickets)
    }

    /** Of two staff members claiming one session, the second is told of the conflict. */
    method ClaimHandoff(sid: SessionId, who: StaffId, now: nat) returns (r: Result<Session, Error>)
      modifies repo
      ensures r == Failure(NotFound) <==> sid !in old(repo.rows)
      ensures r == Failure(Conflict) <==> sid in old(repo.rows) && old(repo.rows)[sid].status != Queued
      ensures r.Failure? ==> repo.rows == old(repo.rows)
      ensures r.Success? ==>
        var was := old(repo.rows)[sid];
        && repo.rows == old(repo.rows)[sid := was.(status := Claimed, assignee := Some(who), claimedAt := Some(now))]
        && r.value == repo.rows[sid]
      ensures r.Failure? ==> r.error in {NotFound, Conflict}
      ensures old(Valid()) ==> Valid()
    {
      if sid !in repo.rows { return Failure(NotFound); }
      var claimed := repo.Claim(sid, who, now);
      match claimed
      case None => r := Failure(Conflict);
      case Some(row) => r := Success(row);
    }

    /** Only the assignee of a claimed session may operate on it. */
    method RequireAssignee(sid: SessionId, who: StaffId) returns (r: Result<Session, Error>)
      ensures r == Failure(NotFound) <==> sid !in repo.rows
      ensures r == Failure(Conflict) <==> sid in repo.rows && repo.rows[sid].status != Claimed
      ensures r == Failure(Forbidden) <==>
        sid in repo.rows && repo.rows[sid].status == Claimed && repo.rows[sid].assignee != Some(who)
      ensures r.Success? <==> sid in repo.rows && repo.rows[sid].status == Claimed && repo.rows[sid].assignee == Some(who)
      ensures r.Success? ==> r.value == repo.rows[sid]
    {
      if sid !in repo.rows { return Failure(NotFound); }
      var row := repo.rows[sid];
      if row.status != Claimed { return Failure(Conflict); }
      if row.assignee != Some(who) { return Failure(Forbidden); }
      r := Success(row);
    }

    method UpdateStatus(c: ConversationId, status: ConversationStatus)
      modifies this`conversations
      ensures conversations == WithStatus(old(conversations), c, status)
    {
      if c in conversations { conversations := conversations[c := status]; }
    }

    /** Closing gives the conversation back: to the assistant, or closed for good. */
    method ResolveHandoff(sid: SessionId, who: StaffId, to: Status, closeConversation: bool, now: nat)
      returns (r: Result<Session, Error>)
      requires to in {Resolved, Returned}
      modifies this`conversations, repo
      ensures r.Success? <==>
        (sid in old(repo.rows) && old(repo.rows)[sid].status == Claimed && old(repo.rows)[sid].assignee == Some(who))
      ensures r.Success? ==>
        var was := old(repo.rows)[sid];
        && repo.rows == old(repo.rows)[sid := was.(status := to, closedAt := Some(now))]
        && r.value == repo.rows[sid]
        && conversations ==
             if was.conversation !in old(conversations) then old(conversations)
             else old(conversations)[was.conversation := if closeConversation then Closed else Active]
      ensures r.Failure? ==> repo.rows == old(repo.rows) && conversations == old(conversations)
      ensures (forall k <- old(repo.rows) :: FieldsMatch(old(repo.rows)[k])) ==> forall k <- repo.rows :: FieldsMatch(repo.rows[k])
      ensures old(Valid()) ==> Valid()
    {
      r := RequireAssignee(sid, who);
      if r.Failure? { return; }
      var closed := repo.Close(sid, Claimed, to, now);
      if closed == None { return Failure(Conflict); }
      UpdateStatus(r.value.conversation, if closeConversation then Closed else Active);
      r := Success(closed.value);
    }

    /** Raises a ticket, or returns the open one that has its title. */
    method RaiseTicket(sid: SessionId, c: ConversationId) returns (k: SessionId)
      modifies this`tickets
      ensures k in tickets && tickets[k] == Ticket(c, true)
      ensures tickets == if HasOpenTicket(old(tickets), c) then old(tickets) else old(tickets)[sid := Ticket(c, true)]
      ensures OneOpenTicketEach(old(tickets)) ==> OneOpenTicketEach(tickets)
    {
      if HasOpenTicket(tickets, c) {
        k :| k in tickets && tickets[k] == Ticket(c, true);
      } else {
        tickets := tickets[sid := Ticket(c, true)];
        k := sid;
      }
    }

    /** Ticket, close and hand back; the outcome of the close is not looked at. */
    method EscalateExpired(sid: SessionId, now: nat)
      requires sid in repo.rows
      modifies this`conversations, this`escalated, this`tickets, repo
      ensures Tables(repo.rows, conversations, escalated, tickets)
        == EscalatedOne(old(Tables(repo.rows, conversations, escalated, tickets)), sid, now)
    {
      var row := repo.rows[sid];
      OneEscalated(Tables(repo.rows, conversations, escalated, tickets), sid);
      if row.conversation !in conversations {
        var _ := repo.Close(sid, Queued, TimedOut, now);
        return;
      }
      var _ := RaiseTicket(sid, row.conversation);
      escalated := escalated + multiset{sid};
      var _ := repo.Close(sid, Queued, TimedOut, now);
      UpdateStatus(row.conversation, Active);
    }

    /** One sweep escalates exactly the expired sessions nobody else holds, each of them once. */
    method SweepExpiredHandoffs(now: nat, locked: set<SessionId>) returns (processed: nat)
      requires Valid()
      modifies this`conversations, this`escalated, this`tickets, repo
      ensures
        var expired := ExpiredRows(old(repo.rows), now, locked);
        && processed == |expired|
        && Swept(old(Tables(repo.rows, conversations, escalated, tickets)), expired, now,
                 Tables(repo.rows, conversations, escalated, tickets))
      ensures Valid()
    {
      var expired := repo.SweepExpired(now, locked);
      ghost var before := Tables(repo.rows, conversations, escalated, tickets);
      processed := EscalateEach(expired, now);
      SweepKeepsValid(before, Members(expired), now, Tables(repo.rows, conversations, escalated, tickets));
    }

    /** The loop over the sessions a sweep has locked. */
    method EscalateEach(expired: seq<SessionId>, now: nat) returns (processed: nat)
      requires Valid()
      requires forall a, b | 0 <= a < b < |expired| :: expired[a] != expired[b]
      requires forall sid <- Members(expired) :: sid in repo.rows && repo.rows[sid].status == Queued
      modifies this`conversations, this`escalated, this`tickets, repo
      ensures processed == |expired|
      ensures Swept(old(Tables(repo.rows, conversations, escalated, tickets)), Members(expired), now,
                    Tables(repo.rows, conversations, escalated, tickets))
    {
      processed := 0;
      ghost var before := Tables(repo.rows, conversations, escalated, tickets);
      while processed < |expired|
        invariant processed <= |expired|
        invariant repo.rows.Keys == before.rows.Keys
        invariant Tables(repo.rows, conversations, escalated, tickets) == EscalatedInOrder(before, expired[..processed], now)
      {
        assert expired[..processed + 1][..processed] == expired[..processed];
        assert expired[processed] in Members(expired);
        EscalateExpired(expired[processed], now);
        processed := processed + 1;
      }
      assert expired[..processed] == expired;
      EscalatedInOrderIsSwept(before, expired, now);
    }
  }

  // ---- One session after the other, and all at once ----

  datatype Tables = Tables(
    rows: map<SessionId, Session>, conversations: map<ConversationId, ConversationStatus>,
    escalated: multiset<SessionId>, tickets: map<SessionId, Ticket>)

  function EscalatedOne(t: Tables, sid: SessionId, now: nat): Tables {
    if sid !in t.rows then t
    else Tables(
      if t.rows[sid].status == Queued then t.rows[sid := ClosedAs(t.rows[sid], TimedOut, now)] else t.rows,
      HandedBack(t.conversations, {t.rows[sid].conversation}),
      t.escalated + EscalatedOf(t.rows, t.conversations, {sid}),
      RaisedTickets(t.rows, t.conversations, t.tickets, {sid}))
  }

  /** What escalating a single session comes to. */
  lemma OneEscalated(t: Tables, sid: SessionId)
    requires sid in t.rows
    ensures
      var c := t.rows[sid].conversation;
      && HandedBack(t.conversations, {c}) == WithStatus(t.conversations, c, Active)
      && EscalatedOf(t.rows, t.conversations, {sid}) == (if c in t.conversations then multiset{sid} else multiset{})
      && RaisedTickets(t.rows, t.conversations, t.tickets, {sid}) ==
           if c in t.conversations && !HasOpenTicket(t.tickets, c) then t.tickets[sid := Ticket(c, true)] else t.tickets
  {
    var c := t.rows[sid].conversation;
    var s := set k | k in {sid} && k in t.rows && t.rows[k].conversation in t.conversations;
    assert s == if c in t.conversations then {sid} else {};
  }

  function EscalatedInOrder(t: Tables, order: seq<SessionId>, now: nat): Tables {
    if order == [] then t
    else EscalatedOne(EscalatedInOrder(t, order[..|order| - 1], now), order[|order| - 1], now)
  }

  /** The tables once the sessions in `swept` are escalated: exactly those are timed out, each is escalated
      once and its conversation handed back if it has one, each conversation that had no open ticket has
      got one, and nothing else changed. */
  predicate Swept(t: Tables, swept: set<SessionId>, now: nat, t': Tables) {
    && t'.rows == SweptRows(t.rows, swept, now)
    && t'.conversations == HandedBack(t.conversations, ConversationsOf(t.rows, swept))
    && t'.escalated == t.escalated + EscalatedOf(t.rows, t.conversations, swept)
    && t'.tickets == RaisedTickets(t.rows, t.conversations, t.tickets, swept)
  }

  /** What the sweep has done to each row and conversation: the overdue sessions are closed as timed out and
      nothing else of them or of the others changes; a conversation is back with the assistant if one of them is its
      own; every escalation is counted once. */
  ghost predicate ClosesOverdue(t: Tables, overdue: set<SessionId>, now: nat, t': Tables) {
    && t'.rows.Keys == t.rows.Keys && t'.conversations.Keys == t.conversations.Keys
    && (forall sid <- t.rows :: t'.rows[sid] ==
          if sid in overdue then t.rows[sid].(status := TimedOut, closedAt := Some(now)) else t.rows[sid])
    && (forall c <- t.conversations ::
          t'.conversations[c] == if Affected(t, overdue, c) then Active else t.conversations[c])
    && (forall sid :: t'.escalated[sid] == t.escalated[sid]
          + if sid in overdue && sid in t.rows && t.rows[sid].conversation in t.conversations then 1 else 0)
  }

  /** Each of these conversations has an open ticket then, no ticket is lost, and a new one is an overdue session's. */
  ghost predicate RaisesForOverdue(t: Tables, overdue: set<SessionId>, t': Tables) {
    && (forall c <- t.conversations :: Affected(t, overdue, c) ==> exists k <- t'.tickets :: t'.tickets[k] == Ticket(c, true))
    && (forall k <- t.tickets :: k !in overdue ==> k in t'.tickets && t'.tickets[k] == t.tickets[k])
    && (forall k <- t'.tickets :: k in t.tickets || (k in overdue && k in t.rows && t'.tickets[k] == Ticket(t.rows[k].conversation, true)))
  }

  /** One of the sessions is of this conversation. */
  predicate Affected(t: Tables, overdue: set<SessionId>, c: ConversationId) {
    exists sid <- overdue :: sid in t.rows && t.rows[sid].conversation == c
  }

  lemma SweptRaises(t: Tables, swept: set<SessionId>, sid: SessionId)
    requires sid in swept && sid in t.rows && t.rows[sid].conversation in t.conversations && CanBeSwept(t, swept)
    ensures
      var c, tickets := t.rows[sid].conversation, RaisedTickets(t.rows, t.conversations, t.tickets, swept);
      exists k <- tickets :: tickets[k] == Ticket(c, true)
  {
    var c, tickets := t.rows[sid].conversation, RaisedTickets(t.rows, t.conversations, t.tickets, swept);
    if HasOpenTicket(t.tickets, c) {
      var k :| k in t.tickets && t.tickets[k] == Ticket(c, true);
      assert k !in swept;
      assert tickets[k] == Ticket(c, true);
    } else {
      assert tickets[sid] == Ticket(c, true);
    }
  }

  lemma SweptCloses(t: Tables, swept: set<SessionId>, now: nat, t': Tables)
    requires Swept(t, swept, now, t')
    ensures ClosesOverdue(t, swept, now, t')
  {
  }

  lemma SweptRaisesAll(t: Tables, swept: set<SessionId>, now: nat, t': Tables)
    requires CanBeSwept(t, swept) && Swept(t, swept, now, t')
    ensures RaisesForOverdue(t, swept, t')
  {
    forall c | c in t.conversations && Affected(t, swept, c) ensures exists k <- t'.tickets :: t'.tickets[k] == Ticket(c, true) {
      var sid :| sid in swept && sid in t.rows && t.rows[sid].conversation == c;
      SweptRaises(t, swept, sid);
    }
  }

  /** So a sweep escalates exactly the sessions that are queued for longer than the timeout and not locked. */
  lemma SweepEscalatesOverdue(t: Tables, now: nat, locked: set<SessionId>, t': Tables, overdue: set<SessionId>)
    requires OneOpenEach(t.rows) && NoTicketYet(t.rows, t.tickets)
    requires Swept(t, ExpiredRows(t.rows, now, locked), now, t')
    requires forall sid :: sid in overdue <==>
      (sid in t.rows && sid !in locked && t.rows[sid].status == Queued && t.rows[sid].createdAt + PICKUP_TIMEOUT < now)
    ensures ClosesOverdue(t, overdue, now, t') && RaisesForOverdue(t, overdue, t')
  {
    assert overdue == ExpiredRows(t.rows, now, locked);
    SweptCloses(t, overdue, now, t');
    SweptRaisesAll(t, overdue, now, t');
  }

  /** The sessions are queued, so each has a conversation of its own and no ticket yet. */
  predicate CanBeSwept(t: Tables, swept: set<SessionId>) {
    && OneOpenEach(t.rows) && NoTicketYet(t.rows, t.tickets)
    && forall sid <- swept :: sid in t.rows && t.rows[sid].status == Queued
  }

  lemma {:induction false} EscalatedInOrderIsSwept(t: Tables, order: seq<SessionId>, now: nat)
    requires forall a, b | 0 <= a < b < |order| :: order[a] != order[b]
    requires CanBeSwept(t, Members(order))
    ensures Swept(t, Members(order), now, EscalatedInOrder(t, order, now))
  {
    if order == [] {
      assert Members(order) == {};
      NothingSwept(t, now);
    } else {
      var k := |order| - 1;
      NextOfOrder(order, k);
      assert order[..k + 1] == order;
      EscalatedInOrderIsSwept(t, order[..k], now);
      SweptOneMore(t, Members(order[..k]), order[k], now, EscalatedInOrder(t, order[..k], now));
    }
  }

  lemma NothingSwept(t: Tables, now: nat)
    ensures Swept(t, {}, now, t)
  {
  }

  lemma NextOfOrder(order: seq<SessionId>, i: nat)
    requires i < |order| && forall a, b | 0 <= a < b < |order| :: order[a] != order[b]
    ensures order[i] in Members(order) && order[i] !in Members(order[..i])
    ensures Members(order[..i + 1]) == Members(order[..i]) + {order[i]}
  {
    assert order[..i + 1] == order[..i] + [order[i]];
  }

  /** Sessions swept before make no difference to how the next one is escalated, but for the tickets there are. */
  lemma NextIsEscalated(t: Tables, done: set<SessionId>, sid: SessionId, now: nat, t': Tables)
    requires sid in t.rows && t.rows[sid].status == Queued && sid !in done && Swept(t, done, now, t')
    ensures EscalatedOne(t', sid, now) == Tables(
      t'.rows[sid := ClosedAs(t.rows[sid], TimedOut, now)],
      HandedBack(t'.conversations, {t.rows[sid].conversation}),
      t'.escalated + EscalatedOf(t.rows, t.conversations, {sid}),
      RaisedTickets(t.rows, t.conversations, t'.tickets, {sid}))
  {
    assert t'.rows[sid] == t.rows[sid] && t'.conversations.Keys == t.conversations.Keys;
    OneEscalated(t', sid);
    OneEscalated(t, sid);
    OneEscalated(t.(tickets := t'.tickets), sid);
  }

  lemma SweptOneMore(t: Tables, done: set<SessionId>, sid: SessionId, now: nat, t': Tables)
    requires CanBeSwept(t, done + {sid}) && sid !in done && Swept(t, done, now, t')
    ensures Swept(t, done + {sid}, now, EscalatedOne(t', sid, now))
  {
    assert sid in done + {sid};
    NextIsEscalated(t, done, sid, now, t');
    SweepOneMore(t.rows, t.conversations, done, sid, now);
    RaiseOneMore(t, done, sid);
  }

  /** Adding one session to what has been swept. */
  lemma SweepOneMore(rows: map<SessionId, Session>, convs: map<ConversationId, ConversationStatus>,
                     done: set<SessionId>, sid: SessionId, now: nat)
    requires sid in rows && sid !in done
    ensures SweptRows(rows, done, now)[sid := ClosedAs(rows[sid], TimedOut, now)] == SweptRows(rows, done + {sid}, now)
    ensures HandedBack(HandedBack(convs, ConversationsOf(rows, done)), {rows[sid].conversation})
         == HandedBack(convs, ConversationsOf(rows, done + {sid}))
    ensures EscalatedOf(rows, convs, done + {sid}) == EscalatedOf(rows, convs, done) + EscalatedOf(rows, convs, {sid})
  {
    assert ConversationsOf(rows, done + {sid}) == ConversationsOf(rows, done) + {rows[sid].conversation};
  }

  /** The tickets raised so far are for other conversations. */
  lemma RaisedElsewhere(t: Tables, done: set<SessionId>, sid: SessionId)
    requires CanBeSwept(t, done + {sid}) && sid !in done
    ensures
      var c := t.rows[sid].conversation;
      HasOpenTicket(RaisedTickets(t.rows, t.conversations, t.tickets, done), c) <==> HasOpenTicket(t.tickets, c)
  {
    var c, after := t.rows[sid].conversation, RaisedTickets(t.rows, t.conversations, t.tickets, done);
    forall k ensures (k in after && after[k] == Ticket(c, true)) <==> (k in t.tickets && t.tickets[k] == Ticket(c, true)) {
      if k in done { OpenOnesDiffer(t.rows, k, sid); }
    }
  }

  lemma RaiseOneMore(t: Tables, done: set<SessionId>, sid: SessionId)
    requires CanBeSwept(t, done + {sid}) && sid !in done
    ensures RaisedTickets(t.rows, t.conversations, RaisedTickets(t.rows, t.conversations, t.tickets, done), {sid})
         == RaisedTickets(t.rows, t.conversations, t.tickets, done + {sid})
  {
    RaisedElsewhere(t, done, sid);
  }

  lemma SweepKeepsValid(t: Tables, swept: set<SessionId>, now: nat, t': Tables)
    requires CanBeSwept(t, swept) && Swept(t, swept, now, t')
    ensures OneOpenEach(t'.rows) && NoTicketYet(t'.rows, t'.tickets)
  {
    forall i, j | i in t'.rows && j in t'.rows && SameOpen(t'.rows[i], t'.rows[j]) ensures i == j {
      assert SameOpen(t.rows[i], t.rows[j]);
    }
  }

  // ---- The operations as transactions of the protocol ----

  predicate EndsIn(s: State, run: seq<Label>, end: State) {
    IsRun(s, run) && Final(s, run) == end
  }

  lemma EndsHere(s: State)
    ensures EndsIn(s, [], s)
  {
  }

  lemma Prepend(s: State, l: Label, rest: seq<Label>, end: State)
    requires Enabled(s, l) && Guarded(s, l) && EndsIn(Apply(s, l), rest, end)
    ensures EndsIn(s, [l] + rest, end)
  {
    assert ([l] + rest)[1..] == rest;
  }

  function Alone(base: State, t: TxnId, x: Txn): State {
    base.(txns := map[t := x])
  }

  lemma CommitAlone(base: State, t: TxnId, x: Txn)
    requires CanCommit(x) && base.txns == map[]
    ensures EndsIn(Alone(base, t, x), [Commit(t)], Committed(base, x))
  {
    assert Apply(Alone(base, t, x), Commit(t)) == Committed(base, x);
    EndsHere(Committed(base, x));
    Prepend(Alone(base, t, x), Commit(t), [], Committed(base, x));
  }

  /** Creating a session alone: the rows are those the create method leaves, the conversation is transferred. */
  lemma CreateIsTransaction(s: State, t: TxnId, c: ConversationId, id: SessionId)
    requires s.txns == map[] && c in s.conversations && id !in s.issued && id !in s.sessions
    ensures EndsIn(s, [BeginEnqueue(t, c)] + ([InsertSession(t, id)] + [Commit(t)]),
      s.(sessions := CreatedRows(s.sessions, c, id, s.now), conversations := s.conversations[c := Transferred],
         issued := s.issued + {id}))
  {
    var x := Fresh(Enqueuing(c)).(conversationLocks := {c}, conversations := map[c := Transferred]);
    var begun, issued := Alone(s, t, x), s.(issued := s.issued + {id});
    assert Apply(s, BeginEnqueue(t, c)) == begun;
    assert Enabled(begun, InsertSession(t, id));
    var y := Inserted(begun, x, id);
    assert Apply(begun, InsertSession(t, id)) == Alone(issued, t, y);
    CommitAlone(issued, t, y);
    CreatedIsCommitted(s, issued, y, c, id);
    var end := Committed(issued, y);
    Prepend(begun, InsertSession(t, id), [Commit(t)], end);
    Prepend(s, BeginEnqueue(t, c), [InsertSession(t, id)] + [Commit(t)], end);
  }

  lemma CreatedIsCommitted(s: State, issued: State, y: Txn, c: ConversationId, id: SessionId)
    requires issued == s.(issued := issued.issued)
    requires y.conversations == map[c := Transferred] && y.escalated == multiset{} && y.tickets == map[]
    requires y.sessions == if HasOpen(s.sessions, c) then map[] else map[id := NewSession(c, s.now)]
    ensures Committed(issued, y) == s.(
      sessions := CreatedRows(s.sessions, c, id, s.now), conversations := s.conversations[c := Transferred],
      issued := issued.issued)
  {
    assert s.sessions + y.sessions == CreatedRows(s.sessions, c, id, s.now);
    assert s.tickets + y.tickets == s.tickets;
  }

  /** Claiming a queued session alone leaves the row the claim method promises. */
  lemma ClaimIsTransaction(s: State, t: TxnId, sid: SessionId, who: StaffId)
    requires s.txns == map[] && sid in s.sessions && s.sessions[sid].status == Queued
    ensures EndsIn(s, [Claim(t, sid, who)] + [Commit(t)],
      s.(sessions := s.sessions[sid := ClaimedBy(s.sessions[sid], who, s.now)]))
  {
    var x := Fresh(Claiming(sid)).(sessionLocks := {sid}, sessions := map[sid := ClaimedBy(s.sessions[sid], who, s.now)]);
    assert Apply(s, Claim(t, sid, who)) == Alone(s, t, x);
    CommitAlone(s, t, x);
    assert s.conversations + x.conversations == s.conversations && s.tickets + x.tickets == s.tickets;
    assert Committed(s, x) == s.(sessions := s.sessions[sid := ClaimedBy(s.sessions[sid], who, s.now)]);
    Prepend(s, Claim(t, sid, who), [Commit(t)], Committed(s, x));
  }

  /** The tables after a resolution, as the method promises them. */
  function AfterResolve(s: State, sid: SessionId, to: Status, next: ConversationStatus): State
    requires sid in s.sessions
  {
    s.(sessions := s.sessions[sid := ClosedAs(s.sessions[sid], to, s.now)],
       conversations := WithStatus(s.conversations, s.sessions[sid].conversation, next))
  }

  /** The status write of a resolution that runs alone, skipped or not. */
  lemma WriteAlone(s: State, t: TxnId, x: Txn) returns (l: Label, y: Txn)
    requires s.txns == map[] && x.stage.Unassigned? && x.stage.s in s.sessions && ClosedIn(s, x) in s.conversations
    requires x.conversationLocks == {} && x.conversations == map[]
    ensures l in {ReleaseConversation(t), SkipRelease(t)}
    ensures Enabled(Alone(s, t, x), l) && Guarded(Alone(s, t, x), l) && Apply(Alone(s, t, x), l) == Alone(s, t, y)
    ensures CanCommit(y) && y.sessions == x.sessions && y.escalated == x.escalated && y.tickets == x.tickets
    ensures s.conversations + y.conversations == s.conversations[ClosedIn(s, x) := x.stage.next]
  {
    var s1 := Alone(s, t, x);
    l := StatusWrite(s1, t);
    y := if Enabled(s1, SkipRelease(t)) then Skipped(x) else Released(s1, x);
    assert Apply(s1, l) == Alone(s, t, y);
  }

  /** The closed session's transaction, as a lone resolution has it before its status write. */
  predicate IsClosing(s: State, x: Txn, sid: SessionId, to: Status, next: ConversationStatus)
    requires sid in s.sessions
  {
    x == Fresh(Unassigned(sid, next)).(sessionLocks := {sid}, sessions := map[sid := ClosedAs(s.sessions[sid], to, s.now)])
  }

  lemma WriteThenCommit(s: State, t: TxnId, x: Txn, sid: SessionId, to: Status, next: ConversationStatus) returns (write: Label)
    requires s.txns == map[] && sid in s.sessions && s.sessions[sid].conversation in s.conversations
    requires IsClosing(s, x, sid, to, next)
    ensures write in {ReleaseConversation(t), SkipRelease(t)}
    ensures EndsIn(Alone(s, t, x), [write] + [Commit(t)], AfterResolve(s, sid, to, next))
  {
    var y: Txn;
    write, y := WriteAlone(s, t, x);
    CommitAlone(s, t, y);
    assert s.sessions + y.sessions == s.sessions[sid := ClosedAs(s.sessions[sid], to, s.now)];
    assert s.tickets + y.tickets == s.tickets;
    assert Committed(s, y) == AfterResolve(s, sid, to, next);
    Prepend(Alone(s, t, x), write, [Commit(t)], AfterResolve(s, sid, to, next));
  }

  /** Resolving alone, as the assignee of a claimed session: the row and the conversation are as the
      resolve method promises, whether the status write is skipped or not. */
  lemma ResolveIsTransaction(s: State, t: TxnId, sid: SessionId, who: StaffId, to: Status, next: ConversationStatus)
    requires s.txns == map[] && Enabled(s, CheckAssignee(t, sid, who, to, next))
    requires s.sessions[sid].conversation in s.conversations
    ensures exists write ::
      write in {ReleaseConversation(t), SkipRelease(t)}
      && EndsIn(s, [CheckAssignee(t, sid, who, to, next)] + ([CloseClaimed(t)] + ([write] + [Commit(t)])), AfterResolve(s, sid, to, next))
  {
    var checked := Alone(s, t, Fresh(Resolving(sid, to, next)));
    assert Apply(s, CheckAssignee(t, sid, who, to, next)) == checked;
    var x := ClosedTxn(checked, Fresh(Resolving(sid, to, next)));
    assert Enabled(checked, CloseClaimed(t)) && Apply(checked, CloseClaimed(t)) == Alone(s, t, x);
    var write := WriteThenCommit(s, t, x, sid, to, next);
    var end := AfterResolve(s, sid, to, next);
    Prepend(checked, CloseClaimed(t), [write] + [Commit(t)], end);
    Prepend(s, CheckAssignee(t, sid, who, to, next), [CloseClaimed(t)] + ([write] + [Commit(t)]), end);
  }

  // ---- The sweep as a transaction of the protocol ----

  /** The rest of a sweep that still has `order` to escalate. */
  function RestOfSweep(t: TxnId, order: seq<SessionId>): seq<Label> {
    if order == [] then [Commit(t)] else [Escalate(t, order[0])] + RestOfSweep(t, order[1..])
  }

  function TablesOf(s: State): Tables {
    Tables(s.sessions, s.conversations, s.escalations, s.tickets)
  }

  /** The sweep has written nothing for the conversation but to hand it back. */
  predicate OnlyHandsBack(x: Txn, c: ConversationId) {
    c in x.conversations ==> x.conversations[c] == Active
  }

  /** How far a sweep with nobody else about has come after escalating `done`. */
  predicate SweptSoFar(base: State, x: Txn, swept: set<SessionId>, done: set<SessionId>) {
    && done <= swept <= base.sessions.Keys
    && x.stage == Sweeping(swept - done) && x.sessionLocks == swept
    && Swept(TablesOf(base), done, base.now, TablesOf(Committed(base, x)))
    && x.conversations.Keys <= base.conversations.Keys
    && forall c <- x.conversations :: OnlyHandsBack(x, c)
  }

  lemma MergeThenUpdate<K, V>(rows: map<K, V>, written: map<K, V>, k: K, row: V)
    ensures rows + written[k := row] == (rows + written)[k := row]
  {
  }

  /** The parts of one more escalation, once committed. */
  lemma EscalatedParts(s: State, base: State, x: Txn, sid: SessionId)
    requires x.stage.Sweeping? && sid in base.sessions && base.sessions[sid].status == Queued
    requires s.sessions == base.sessions && s.conversations == base.conversations && s.now == base.now && s.tickets == base.tickets
    requires x.conversations.Keys <= base.conversations.Keys
    ensures
      var row, y := base.sessions[sid], Escalated(s, x, sid);
      && base.sessions + y.sessions == (base.sessions + x.sessions)[sid := ClosedAs(row, TimedOut, base.now)]
      && y.escalated == x.escalated + (if row.conversation in base.conversations then multiset{sid} else multiset{})
      && base.tickets + y.tickets ==
           (if row.conversation in base.conversations && !HasOpenTicket(base.tickets + x.tickets, row.conversation)
            then (base.tickets + x.tickets)[sid := Ticket(row.conversation, true)] else base.tickets + x.tickets)
      && y.conversations.Keys <= base.conversations.Keys
  {
    var row := base.sessions[sid];
    MergeThenUpdate(base.sessions, x.sessions, sid, ClosedAs(row, TimedOut, base.now));
    MergeThenUpdate(base.tickets, x.tickets, sid, Ticket(row.conversation, true));
  }

  /** A conversation that is active already is not written; it is handed back all the same. */
  lemma EscalatedHandsBack(s: State, base: State, x: Txn, sid: SessionId)
    requires x.stage.Sweeping? && sid in base.sessions && OnlyHandsBack(x, base.sessions[sid].conversation)
    requires s.sessions == base.sessions && s.conversations == base.conversations
    requires x.conversations.Keys <= base.conversations.Keys
    ensures
      var c := base.sessions[sid].conversation;
      base.conversations + Escalated(s, x, sid).conversations == WithStatus(base.conversations + x.conversations, c, Active)
  {
    var c := base.sessions[sid].conversation;
    MergeThenUpdate(base.conversations, x.conversations, c, Active);
  }

  /** What one more escalation does to the tables that the sweep would commit. */
  lemma EscalateThenCommit(s: State, base: State, x: Txn, sid: SessionId)
    requires x.stage.Sweeping? && sid in base.sessions && base.sessions[sid].status == Queued && sid !in x.sessions
    requires s.sessions == base.sessions && s.conversations == base.conversations && s.now == base.now && s.tickets == base.tickets
    requires x.conversations.Keys <= base.conversations.Keys && OnlyHandsBack(x, base.sessions[sid].conversation)
    ensures TablesOf(Committed(base, Escalated(s, x, sid))) == EscalatedOne(TablesOf(Committed(base, x)), sid, base.now)
    ensures Escalated(s, x, sid).conversations.Keys <= base.conversations.Keys
  {
    EscalatedParts(s, base, x, sid);
    EscalatedHandsBack(s, base, x, sid);
    OneEscalated(TablesOf(Committed(base, x)), sid);
    assert (base.sessions + x.sessions)[sid] == base.sessions[sid];
    assert (base.conversations + x.conversations).Keys == base.conversations.Keys;
  }

  function AfterSweep(base: State, swept: set<SessionId>): State {
    base.(sessions := SweptRows(base.sessions, swept, base.now),
          conversations := HandedBack(base.conversations, ConversationsOf(base.sessions, swept)),
          escalations := base.escalations + EscalatedOf(base.sessions, base.conversations, swept),
          tickets := RaisedTickets(base.sessions, base.conversations, base.tickets, swept))
  }

  lemma EscalateAlone(base: State, t: TxnId, x: Txn, sid: SessionId)
    requires x.stage.Sweeping? && sid in x.stage.todo && sid in base.sessions
    ensures Enabled(Alone(base, t, x), Escalate(t, sid))
    ensures Apply(Alone(base, t, x), Escalate(t, sid)) == Alone(base, t, Escalated(Alone(base, t, x), x, sid))
  {
  }

  lemma OneLessToDo(order: seq<SessionId>, swept: set<SessionId>, done: set<SessionId>)
    requires Enumerates(order, swept - done) && order != []
    ensures order[0] in swept - done && Enumerates(order[1..], swept - (done + {order[0]}))
  {
    assert Members(order) == Members(order[1..]) + {order[0]};
    assert order[0] in Members(order);
  }

  lemma EscalatedShape(s: State, x: Txn, sid: SessionId)
    requires x.stage.Sweeping? && sid in s.sessions && forall c <- x.conversations :: OnlyHandsBack(x, c)
    ensures
      var y := Escalated(s, x, sid);
      && y.stage == Sweeping(x.stage.todo - {sid}) && y.sessionLocks == x.sessionLocks
      && y.sessions.Keys <= x.sessions.Keys + {sid}
      && forall c <- y.conversations :: OnlyHandsBack(y, c)
  {
    forall c | c in Escalated(s, x, sid).conversations ensures OnlyHandsBack(Escalated(s, x, sid), c) {
      if c in x.conversations { assert OnlyHandsBack(x, c); }
    }
  }

  lemma FewerCanBeSwept(t: Tables, swept: set<SessionId>, fewer: set<SessionId>)
    requires CanBeSwept(t, swept) && fewer <= swept
    ensures CanBeSwept(t, fewer)
  {
  }

  lemma EscalateOneMore(base: State, t: TxnId, x: Txn, swept: set<SessionId>, done: set<SessionId>, sid: SessionId)
    requires SweptSoFar(base, x, swept, done) && sid in swept - done && CanBeSwept(TablesOf(base), swept)
    requires x.sessions.Keys <= done
    ensures SweptSoFar(base, Escalated(Alone(base, t, x), x, sid), swept, done + {sid})
    ensures Escalated(Alone(base, t, x), x, sid).sessions.Keys <= done + {sid}
  {
    assert swept - done - {sid} == swept - (done + {sid});
    EscalatedShape(Alone(base, t, x), x, sid);
    FewerCanBeSwept(TablesOf(base), swept, done + {sid});
    EscalateThenCommit(Alone(base, t, x), base, x, sid);
    SweptOneMore(TablesOf(base), done, sid, base.now, TablesOf(Committed(base, x)));
  }

  lemma {:induction false} EscalateTheRest(base: State, t: TxnId, x: Txn, swept: set<SessionId>, done: set<SessionId>, order: seq<SessionId>)
    requires base.txns == map[] && CanBeSwept(TablesOf(base), swept)
    requires SweptSoFar(base, x, swept, done) && x.sessions.Keys <= done && Enumerates(order, swept - done)
    ensures EndsIn(Alone(base, t, x), RestOfSweep(t, order), AfterSweep(base, swept))
    decreases |order|
  {
    if order == [] {
      assert swept - done == {} && done == swept;
      CommitAlone(base, t, x);
    } else {
      var sid := order[0];
      OneLessToDo(order, swept, done);
      var y := Escalated(Alone(base, t, x), x, sid);
      EscalateOneMore(base, t, x, swept, done, sid);
      EscalateAlone(base, t, x, sid);
      EscalateTheRest(base, t, y, swept, done + {sid}, order[1..]);
      Prepend(Alone(base, t, x), Escalate(t, sid), RestOfSweep(t, order[1..]), AfterSweep(base, swept));
    }
  }

  /** A sweep that runs alone is the protocol's sweep transaction: whatever order it takes the expired
      sessions in, the committed tables are the ones the sweep method promises. */
  lemma SweepIsTransaction(s: State, t: TxnId, order: seq<SessionId>)
    requires CommittedOk(s) && s.txns == map[] && Enumerates(order, ExpiredRows(s.sessions, s.now, {}))
    ensures EndsIn(s, [BeginSweep(t)] + RestOfSweep(t, order), AfterSweep(s, ExpiredRows(s.sessions, s.now, {})))
  {
    var swept := ExpiredRows(s.sessions, s.now, {});
    var x := Fresh(Sweeping(swept)).(sessionLocks := swept);
    SweepBeginsAlone(s, t, swept, x);
    ExpiredCanBeSwept(s, swept);
    NothingCommitted(s, x, swept);
    assert swept - {} == swept;
    EscalateTheRest(s, t, x, swept, {}, order);
    Prepend(s, BeginSweep(t), RestOfSweep(t, order), AfterSweep(s, swept));
  }

  lemma NothingCommitted(s: State, x: Txn, swept: set<SessionId>)
    requires x == Fresh(Sweeping(swept)).(sessionLocks := swept) && swept <= s.sessions.Keys
    ensures SweptSoFar(s, x, swept, {})
  {
    assert TablesOf(Committed(s, x)) == TablesOf(s);
    assert swept - {} == swept;
  }

  lemma ExpiredCanBeSwept(s: State, swept: set<SessionId>)
    requires CommittedOk(s) && swept == ExpiredRows(s.sessions, s.now, {})
    ensures CanBeSwept(TablesOf(s), swept)
  {
    forall sid | sid in s.sessions && s.sessions[sid].status == Queued ensures sid !in s.tickets {
      NotTimedOutMeansNotRaised(s, sid);
    }
  }

  lemma SweepBeginsAlone(s: State, t: TxnId, swept: set<SessionId>, x: Txn)
    requires s.txns == map[] && swept == ExpiredRows(s.sessions, s.now, {})
    requires x == Fresh(Sweeping(swept)).(sessionLocks := swept)
    ensures Apply(s, BeginSweep(t)) == Alone(s, t, x)
  {
    assert ExpiredIn(s) == swept;
  }
}
