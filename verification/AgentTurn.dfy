/** One turn of the agent: slot filling across turns and the routing policy around it. */
module AgentTurn {
  import opened Wrappers

  const MAX_SLOT_TURNS := 3
  const MAX_QUESTION_CHARS := 2000
  const RESUME_SLOT_CONFIDENCE := 0.9
  const ABANDON_CONFIDENCE := 0.7
  const LOW_CONFIDENCE := 0.5
  const ORDER_SLOT := "order_id"
  const ORDER_TOOL := "search_order"
  const ORDER_INTENT := "order_query"
  const DEFAULT_INTENT := "faq"

  datatype Intent = Intent(name: string, confidence: real)

  /** The slot record kept with the conversation while the user owes an answer. */
  datatype Record = Record(tool: string, slot: string, intent: string, turnsWaited: nat)

  /** The user's message, stripped, with what the two pattern matchers say about it. */
  datatype Message = Message(text: string, controlsPrompt: bool, orderId: bool)

  /** The classifier's answer, or its failure. */
  datatype Answer = Failed | Classified(intent: Intent, needsClarification: bool)

  type RouteMap = map<string, string>

  datatype Turn = Turn(message: Message, answer: Answer, routes: RouteMap)

  predicate Accepted(m: Message) {
    0 < |m.text| <= MAX_QUESTION_CHARS && !m.controlsPrompt
  }

  // ---- Routing ----

  const FALLBACK_ROUTES: RouteMap :=
    map["faq" := "rag", "product" := "rag", "order_query" := "tool", "fault_report" := "ticket",
        "complaint" := "ticket", "handoff" := "handoff"]

  const VALID_ROUTES: set<string> := {"rag", "ticket", "handoff", "clarify", "tool"}

  function RouteByIntent(intent: Option<Intent>, needsClarification: bool, routes: RouteMap): string {
    if intent.None? then "rag"
    else if needsClarification && intent.value.confidence < LOW_CONFIDENCE then "clarify"
    else
      var mapping := if routes == map[] then FALLBACK_ROUTES else routes;
      var target := if intent.value.name in mapping then mapping[intent.value.name] else "rag";
      if target in VALID_ROUTES then target else "rag"
  }

  function ChosenRoute(intent: Option<Intent>, candidate: string): string {
    if intent.Some? && intent.value.confidence < LOW_CONFIDENCE then "clarify"
    else if candidate in VALID_ROUTES then candidate
    else "rag"
  }

  // ---- Tools ----

  const INTENT_TOOLS: map<string, string> :=
    map["order_query" := "search_order", "knowledge_search" := "search_knowledge", "kb_search" := "search_knowledge"]

  /** The tool that ran (or the unknown name), and the slot it is missing. */
  datatype ToolResult = ToolResult(tool: string, needsSlot: Option<string>)

  function ExecuteTool(name: string, m: Message): ToolResult {
    if name !in INTENT_TOOLS then ToolResult(name, None)
    else if INTENT_TOOLS[name] == ORDER_TOOL && !m.orderId then ToolResult(ORDER_TOOL, Some(ORDER_SLOT))
    else ToolResult(INTENT_TOOLS[name], None)
  }

  // ---- A whole turn, as a function of the stored record ----

  datatype Outcome = Outcome(pending: Option<Record>, route: Option<string>, result: Option<ToolResult>)

  /** The user was asked for the missing slot. */
  predicate Asked(o: Outcome) { o.result.Some? && o.result.value.needsSlot.Some? }

  /** The order tool ran on an order id. */
  predicate Answered(o: Outcome) { o.result == Some(ToolResult(ORDER_TOOL, None)) }

  function ClassifiedIntent(a: Answer): Intent {
    if a.Failed? then Intent(DEFAULT_INTENT, 0.5) else a.intent
  }

  /** What becomes of the record, and which route it asks for, once the message is classified. */
  function Settled(pending: Option<Record>, intent: Intent): (Option<Record>, Option<string>) {
    if pending.None? then (None, None)
    else if intent.name == pending.value.intent then
      if pending.value.turnsWaited + 1 >= MAX_SLOT_TURNS then (None, Some("clarify")) else (pending, Some("tool"))
    else if intent.confidence >= ABANDON_CONFIDENCE then (None, None)
    else (pending, None)
  }

  function NextRecord(pending: Option<Record>, intent: Intent, tool: string, slot: string): Record {
    if pending.Some? && pending.value.slot == slot && pending.value.tool == tool
    then pending.value.(turnsWaited := pending.value.turnsWaited + 1)
    else Record(tool, slot, intent.name, 0)
  }

  function AfterTool(pending: Option<Record>, intent: Intent, r: ToolResult): Option<Record> {
    if r.needsSlot.Some? then Some(NextRecord(pending, intent, r.tool, r.needsSlot.value)) else None
  }

  function RunRoute(pending: Option<Record>, intent: Intent, route: string, m: Message): Outcome {
    if route == "tool" then
      var r := ExecuteTool(intent.name, m);
      Outcome(AfterTool(pending, intent, r), Some(route), Some(r))
    else Outcome(pending, Some(route), None)
  }

  function TakeTurn(pending: Option<Record>, t: Turn): Outcome {
    if !Accepted(t.message) then Outcome(pending, None, None)
    else if pending.Some? && t.message.orderId then
      var intent := Intent(pending.value.intent, RESUME_SLOT_CONFIDENCE);
      RunRoute(pending, intent, ChosenRoute(Some(intent), "tool"), t.message)
    else
      var intent := ClassifiedIntent(t.answer);
      var (kept, asked) := Settled(pending, intent);
      var candidate :=
        if asked.Some? then asked.value
        else RouteByIntent(Some(intent), t.answer.Classified? && t.answer.needsClarification, t.routes);
      RunRoute(kept, intent, ChosenRoute(Some(intent), candidate), t.message)
  }

  // ---- Where a turn goes ----

  /** A message is taken up exactly when it has one to two thousand characters and does not steer the prompt;
      one that is not leaves everything as it was. */
  lemma TakenUpIff(pending: Option<Record>, t: Turn)
    ensures TakeTurn(pending, t).route.Some? <==> 1 <= |t.message.text| <= 2000 && !t.message.controlsPrompt
    ensures TakeTurn(pending, t).route == None ==> TakeTurn(pending, t) == Outcome(pending, None, None)
  {
  }

  /** A confident turn that no record steers goes where the configured routes send its intent, or to retrieval if they
      do not know it or name no route there is; without any configured, handoffs go to the staff, complaints and
      fault reports to a ticket, order queries to the tool and everything else to retrieval. A classifier that fails
      counts as a confident "faq". */
  lemma ConfidentTurnIsRouted(pending: Option<Record>, t: Turn)
    requires Accepted(t.message) && (t.answer.Classified? ==> t.answer.intent.confidence >= 0.5)
    requires pending.Some? ==> !t.message.orderId && t.answer.Classified? && t.answer.intent.name != pending.value.intent
    ensures
      var name, route := if t.answer.Failed? then "faq" else t.answer.intent.name, TakeTurn(pending, t).route;
      if t.routes != map[] then
        if name in t.routes && t.routes[name] in {"rag", "ticket", "handoff", "clarify", "tool"}
        then route == Some(t.routes[name]) else route == Some("rag")
      else if name == "handoff" then route == Some("handoff")
      else if name == "complaint" || name == "fault_report" then route == Some("ticket")
      else if name == "order_query" then route == Some("tool")
      else route == Some("rag")
  {
  }

  /** With a record open an order id or the same intent again goes to the tool, the latter until the third question is
      used up; and an uncertain turn asks what is meant, with or without a record. */
  lemma RecordSteers(pending: Record, t: Turn)
    requires Accepted(t.message)
    ensures
      var route := TakeTurn(Some(pending), t).route;
      && (t.message.orderId ==> route == Some("tool"))
      && (!t.message.orderId && t.answer.Classified? && t.answer.intent.confidence < 0.5 ==> route == Some("clarify"))
      && (!t.message.orderId && t.answer.Classified? && t.answer.intent.confidence >= 0.5 && t.answer.intent.name == pending.intent ==>
            route == Some(if pending.turnsWaited >= 2 then "clarify" else "tool"))
    ensures t.answer.Classified? && t.answer.intent.confidence < 0.5 ==> TakeTurn(None, t).route == Some("clarify")
  {
  }

  /** A tool runs exactly on the tool route: the order search, which asks for the order id it lacks, for order queries;
      the knowledge search for its two names; and whatever name the intent has otherwise. */
  lemma ToolOfTurn(pending: Option<Record>, t: Turn)
    ensures
      var o := TakeTurn(pending, t);
      var name :=
        if pending.Some? && t.message.orderId then pending.value.intent
        else if t.answer.Failed? then "faq" else t.answer.intent.name;
      o.result ==
        if o.route != Some("tool") then None
        else if name == "order_query" then Some(ToolResult("search_order", if t.message.orderId then None else Some("order_id")))
        else if name == "knowledge_search" || name == "kb_search" then Some(ToolResult("search_knowledge", None))
        else Some(ToolResult(name, None))
  {
  }

  // ---- The turn as the service performs it ----

  /** The conversation row, which outlives the turn. */
  class Conversation {
    var pendingTool: Option<Record>

    constructor ()
      ensures pendingTool == None
    {
      pendingTool := None;
    }
  }

  /** The working state of one turn. */
  class AgentState {
    const message: Message
    var intent: Option<Intent>
    var needsClarification: bool
    var pendingTool: Option<Record>
    var route: Option<string>
    var toolResult: Option<ToolResult>

    constructor (message: Message)
      ensures this.message == message && intent == None && !needsClarification
      ensures pendingTool == None && route == None && toolResult == None
    {
      this.message := message;
      intent := None;
      needsClarification := false;
      pendingTool := None;
      route := None;
      toolResult := None;
    }

    /** A message with an order id resumes the tool without asking the classifier. */
    method ResumePendingRoute(pending: Option<Record>) returns (r: Option<string>)
      modifies this`intent, this`pendingTool
      ensures pendingTool == if pending.Some? then pending else old(pendingTool)
      ensures r == if pending.Some? && message.orderId then Some("tool") else None
      ensures intent == if r.Some? then Some(Intent(pending.value.intent, 0.9)) else old(intent)
    {
      if pending == None { return None; }
      pendingTool := pending;
      if !message.orderId { return None; }
      intent := Some(Intent(pending.value.intent, RESUME_SLOT_CONFIDENCE));
      r := Some("tool");
    }

    method Classify(a: Answer)
      modifies this`intent, this`needsClarification
      ensures intent == Some(ClassifiedIntent(a))
      ensures needsClarification == if a.Classified? then a.needsClarification else old(needsClarification)
    {
      match a
      case Failed => intent := Some(Intent(DEFAULT_INTENT, 0.5));
      case Classified(i, unclear) =>
        intent := Some(i);
        needsClarification := unclear;
    }

    /** The record in memory and the one stored with the conversation are cleared together. */
    method SettlePendingAfterClassify(c: Conversation) returns (r: Option<string>)
      requires intent.Some? && (pendingTool.Some? ==> c.pendingTool == pendingTool)
      modifies this`pendingTool, c
      ensures (pendingTool, r) == Settled(old(pendingTool), intent.value)
      ensures c.pendingTool == if old(pendingTool).Some? then pendingTool else old(c.pendingTool)
    {
      r := None;
      if pendingTool == None { return; }
      var pending := pendingTool.value;
      if intent.value.name == pending.intent {
        if pending.turnsWaited + 1 >= MAX_SLOT_TURNS {
          c.pendingTool := None;
          pendingTool := None;
          return Some("clarify");
        }
        return Some("tool");
      }
      if intent.value.confidence >= ABANDON_CONFIDENCE {
        c.pendingTool := None;
        pendingTool := None;
      }
    }

    method SyncPendingAfterTool(result: ToolResult, c: Conversation)
      requires intent.Some? && c.pendingTool == pendingTool
      modifies this`pendingTool, c
      ensures pendingTool == c.pendingTool == AfterTool(old(pendingTool), intent.value, result)
    {
      if result.needsSlot.Some? {
        var record := NextRecord(pendingTool, intent.value, result.tool, result.needsSlot.value);
        c.pendingTool := Some(record);
        pendingTool := Some(record);
        return;
      }
      if pendingTool != None {
        c.pendingTool := None;
        pendingTool := None;
      }
    }

    method ChooseRoute(candidate: string) returns (r: string)
      modifies this`route
      ensures r == ChosenRoute(intent, candidate) && route == Some(r)
      ensures r in VALID_ROUTES
    {
      r := candidate;
      if r !in VALID_ROUTES { r := "rag"; }
      if intent.Some? && intent.value.confidence < LOW_CONFIDENCE { r := "clarify"; }
      route := Some(r);
    }
  }

  /** One request: the stored record goes from one value to the next as `TakeTurn` says. */
  method Process(c: Conversation, t: Turn) returns (s: AgentState)
    modifies c
    ensures c.pendingTool == TakeTurn(old(c.pendingTool), t).pending
    ensures s.route == TakeTurn(old(c.pendingTool), t).route
    ensures s.toolResult == TakeTurn(old(c.pendingTool), t).result
  {
    s := new AgentState(t.message);
    if !Accepted(t.message) { return; }
    var slotRoute := s.ResumePendingRoute(c.pendingTool);
    if slotRoute == None {
      s.Classify(t.answer);
      slotRoute := s.SettlePendingAfterClassify(c);
    }
    var candidate := if slotRoute.Some? then slotRoute.value else RouteByIntent(s.intent, s.needsClarification, t.routes);
    var route := s.ChooseRoute(candidate);
    if route == "tool" {
      var result := ExecuteTool(s.intent.value.name, t.message);
      s.toolResult := Some(result);
      s.SyncPendingAfterTool(result, c);
    }
  }

  // ---- Runs of turns ----

  /** The record after a conversation, from its beginning. */
  function RecordAfter(turns: seq<Turn>): Option<Record>
    decreases |turns|, 1
  {
    if turns == [] then None else LastOutcome(turns).pending
  }

  function LastOutcome(turns: seq<Turn>): Outcome
    requires turns != []
    decreases |turns|, 0
  {
    TakeTurn(RecordAfter(turns[..|turns| - 1]), turns[|turns| - 1])
  }

  /** How often the user has been asked since the conversation was last without a record. */
  function AskedSinceOpened(turns: seq<Turn>): nat {
    if RecordAfter(turns) == None then 0
    else AskedSinceOpened(turns[..|turns| - 1]) + if Asked(LastOutcome(turns)) then 1 else 0
  }

  predicate IsOrderRecord(r: Record) {
    r.tool == ORDER_TOOL && r.slot == ORDER_SLOT && r.intent == ORDER_INTENT && r.turnsWaited < MAX_SLOT_TURNS
  }

  /** One turn: a record is opened by a first question, each further question adds one, and a record
      that survives a turn without a question is unchanged. */
  lemma TurnCountsQuestions(pending: Option<Record>, t: Turn)
    requires pending.Some? ==> IsOrderRecord(pending.value)
    ensures
      var o := TakeTurn(pending, t);
      o.pending.Some? ==>
        && IsOrderRecord(o.pending.value)
        && o.pending.value.turnsWaited + 1
           == (if pending.Some? then pending.value.turnsWaited + 1 else 0) + if Asked(o) then 1 else 0
  {
  }

  /** In every conversation the record's counter is the number of questions asked since it was opened,
      less one; so nobody is asked more than three times in a row. */
  lemma {:induction false} CounterIsQuestionsAsked(turns: seq<Turn>)
    ensures RecordAfter(turns).Some? ==>
      && IsOrderRecord(RecordAfter(turns).value)
      && RecordAfter(turns).value.turnsWaited + 1 == AskedSinceOpened(turns)
    ensures AskedSinceOpened(turns) <= 3
  {
    if turns != [] {
      var before := turns[..|turns| - 1];
      CounterIsQuestionsAsked(before);
      TurnCountsQuestions(RecordAfter(before), turns[|turns| - 1]);
    }
  }

  /** An accepted message that carries an order id, sent while a record is open, runs the order tool
      and closes the record, whatever the classifier would have said and however the routes are set. */
  lemma OrderIdAnswersTheQuestion(turns: seq<Turn>, t: Turn)
    requires RecordAfter(turns).Some? && Accepted(t.message) && t.message.orderId
    ensures Answered(LastOutcome(turns + [t])) && RecordAfter(turns + [t]) == None
    ensures LastOutcome(turns + [t]).route == Some("tool")
  {
    CounterIsQuestionsAsked(turns);
    assert (turns + [t])[..|turns|] == turns;
  }

  /** Exactly when an open record is closed by the next turn. */
  lemma RecordClosesIff(turns: seq<Turn>, t: Turn)
    requires RecordAfter(turns).Some?
    ensures
      var i := ClassifiedIntent(t.answer);
      RecordAfter(turns + [t]) == None <==>
        Accepted(t.message)
        && (|| t.message.orderId
            || (i.name == "order_query" && AskedSinceOpened(turns) == 3)
            || (i.name != "order_query"
                && (|| i.confidence >= 0.7
                    || (i.confidence >= 0.5 && i.name in t.routes && t.routes[i.name] == "tool"))))
  {
    CounterIsQuestionsAsked(turns);
    assert (turns + [t])[..|turns|] == turns;
  }

  /** A turn whose intent is too uncertain to act on asks nothing and runs no tool, and leaves the
      record for the next turn unless that record had used up its questions. */
  lemma LowConfidenceOnlyClarifies(turns: seq<Turn>, t: Turn)
    requires Accepted(t.message) && ClassifiedIntent(t.answer).confidence < 0.5
    requires !(RecordAfter(turns).Some? && t.message.orderId)
    ensures LastOutcome(turns + [t]).route == Some("clarify") && LastOutcome(turns + [t]).result == None
    ensures RecordAfter(turns + [t]) == RecordAfter(turns)
      <==> !(ClassifiedIntent(t.answer).name == "order_query" && AskedSinceOpened(turns) == 3)
  {
    CounterIsQuestionsAsked(turns);
    assert (turns + [t])[..|turns|] == turns;
  }

  /** Without a record, the user is asked exactly when an accepted message without an order id is
      routed to the tool as an order query. */
  lemma RecordOpensIff(turns: seq<Turn>, t: Turn)
    requires RecordAfter(turns) == None
    ensures
      var i := ClassifiedIntent(t.answer);
      RecordAfter(turns + [t]).Some? <==>
        Accepted(t.message) && !t.message.orderId && i.name == "order_query" && i.confidence >= 0.5
        && (t.routes == map[] || ("order_query" in t.routes && t.routes["order_query"] == "tool"))
  {
    assert (turns + [t])[..|turns|] == turns;
  }
}
