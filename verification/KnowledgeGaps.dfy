/** Counting unanswered questions: one open row per question, its counters, and how rows leave open. */
module KnowledgeGaps {
  import opened Wrappers

  datatype Kind = Clarify | RagRefusal | LowRetrievalScore | Handoff | NegativeFeedback

  datatype Status = Open | Promoted | Dismissed

  datatype Gap = Gap(
    hash: string, question: string, status: Status, frequency: nat, signals: map<Kind, nat>,
    lastIntent: Option<string>, promotedDoc: Option<nat>)

  function SignalCount(g: Gap, kind: Kind): nat {
    if kind in g.signals then g.signals[kind] else 0
  }

  function NewGap(kind: Kind, question: string, hash: string, intent: Option<string>): Gap {
    Gap(hash, question, Open, 1, map[kind := 1], intent, None)
  }

  /** One more signal on an open row; an unknown intent does not replace a known one. */
  function Counted(g: Gap, kind: Kind, question: string, intent: Option<string>): Gap {
    g.(frequency := g.frequency + 1, question := question,
       lastIntent := if intent.Some? then intent else g.lastIntent,
       signals := g.signals[kind := SignalCount(g, kind) + 1])
  }

  predicate IsOpenFor(g: Gap, hash: string) { g.status == Open && g.hash == hash }

  function OpenRow(rows: seq<Gap>, hash: string): Option<nat> {
    if rows == [] then None
    else if IsOpenFor(rows[|rows| - 1], hash) then Some(|rows| - 1)
    else OpenRow(rows[..|rows| - 1], hash)
  }

  lemma {:induction false} OpenRowIsOpen(rows: seq<Gap>, hash: string)
    ensures OpenRow(rows, hash).Some? ==>
      OpenRow(rows, hash).value < |rows| && IsOpenFor(rows[OpenRow(rows, hash).value], hash)
    ensures OpenRow(rows, hash) == None ==> forall i | 0 <= i < |rows| :: !IsOpenFor(rows[i], hash)
  {
    if rows != [] { OpenRowIsOpen(rows[..|rows| - 1], hash); }
  }

  // ---- Steps ----

  datatype Event =
    | Signal(kind: Kind, question: string, hash: string, intent: Option<string>)
    | Dismiss(id: nat)
    | Promote(id: nat, doc: nat)

  /** Insert, or count on the open row of the same question. */
  function Recorded(rows: seq<Gap>, kind: Kind, question: string, hash: string, intent: Option<string>): seq<Gap> {
    var open := OpenRow(rows, hash);
    if open.Some? && open.value < |rows| then rows[open.value := Counted(rows[open.value], kind, question, intent)]
    else rows + [NewGap(kind, question, hash, intent)]
  }

  function Step(rows: seq<Gap>, e: Event): seq<Gap> {
    match e
    case Signal(kind, question, hash, intent) => Recorded(rows, kind, question, hash, intent)
    case Dismiss(id) => if id < |rows| then rows[id := rows[id].(status := Dismissed)] else rows
    case Promote(id, doc) =>
      if id < |rows| then rows[id := rows[id].(status := Promoted, promotedDoc := Some(doc))] else rows
  }

  function Run(events: seq<Event>): seq<Gap> {
    if events == [] then [] else Step(Run(events[..|events| - 1]), events[|events| - 1])
  }

  // ---- The table ----

  class GapRepo {
    var rows: seq<Gap>

    constructor ()
      ensures rows == []
    {
      rows := [];
    }

    /** The open row of this question gets one more signal and every other row stays as it is; with no
        such row, one is added. */
    method Record(kind: Kind, question: string, hash: string, intent: Option<string>)
      modifies this
      ensures rows == Step(old(rows), Signal(kind, question, hash, intent))
      ensures exists i | 0 <= i < |rows| ::
        && IsOpenFor(rows[i], hash) && SignalCount(rows[i], kind) > 0
        && rows[i].question == question
        && (if i < |old(rows)| then
              && rows[i].frequency == old(rows)[i].frequency + 1
              && rows[i].lastIntent == (if intent.Some? then intent else old(rows)[i].lastIntent)
              && rows[i].signals == old(rows)[i].signals[kind := SignalCount(old(rows)[i], kind) + 1]
            else rows[i] == Gap(hash, question, Open, 1, map[kind := 1], intent, None))
        && forall j | 0 <= j < |old(rows)| && j != i :: rows[j] == old(rows)[j]
    {
      OpenRowIsOpen(rows, hash);
      var open := OpenRow(rows, hash);
      match open
      case Some(i) =>
        rows := rows[i := Counted(rows[i], kind, question, intent)];
        assert IsOpenFor(rows[i], hash);
      case None =>
        rows := rows + [NewGap(kind, question, hash, intent)];
        assert IsOpenFor(rows[|rows| - 1], hash);
    }

    method SetStatus(id: nat, status: Status) returns (r: Option<Gap>)
      modifies this
      ensures r == if id < |old(rows)| then Some(old(rows)[id].(status := status)) else None
      ensures rows == if id < |old(rows)| then old(rows)[id := old(rows)[id].(status := status)] else old(rows)
    {
      r := None;
      if id < |rows| {
        rows := rows[id := rows[id].(status := status)];
        r := Some(rows[id]);
      }
    }

    /** Publishing a draft promotes its gap, if it still exists. */
    method PromoteGap(id: nat, doc: nat)
      modifies this
      ensures rows == Step(old(rows), Promote(id, doc))
      ensures rows == if id >= |old(rows)| then old(rows)
                      else old(rows)[id := old(rows)[id].(status := Promoted, promotedDoc := Some(doc))]
    {
      if id < |rows| {
        rows := rows[id := rows[id].(status := Promoted, promotedDoc := Some(doc))];
      }
    }

    /** The one status an administrator may set. */
    method UpdateGap(id: nat, status: Status) returns (r: Option<Gap>)
      modifies this
      ensures status == Dismissed ==> rows == Step(old(rows), Dismiss(id)) && (r.Some? <==> id < |old(rows)|)
      ensures status == Dismissed && id < |old(rows)| ==> rows == old(rows)[id := old(rows)[id].(status := Dismissed)]
      ensures status != Dismissed ==> rows == old(rows) && r == None
    {
      r := None;
      if status == Dismissed {
        r := SetStatus(id, status);
      }
    }
  }

  // ---- Conservation ----

  function TotalSignals(g: Gap): nat {
    SignalCount(g, Clarify) + SignalCount(g, RagRefusal) + SignalCount(g, LowRetrievalScore)
    + SignalCount(g, Handoff) + SignalCount(g, NegativeFeedback)
  }

  /** The signals of one kind counted on the rows of one question. */
  function KindTotal(rows: seq<Gap>, hash: string, kind: Kind): nat {
    if rows == [] then 0
    else KindTotal(rows[..|rows| - 1], hash, kind)
         + if rows[|rows| - 1].hash == hash then SignalCount(rows[|rows| - 1], kind) else 0
  }

  function FrequencyTotal(rows: seq<Gap>, hash: string): nat {
    if rows == [] then 0
    else FrequencyTotal(rows[..|rows| - 1], hash) + if rows[|rows| - 1].hash == hash then rows[|rows| - 1].frequency else 0
  }

  /** How often a question came up, in all and by kind of signal. */
  function SignalsSent(events: seq<Event>, hash: string): nat {
    if events == [] then 0
    else SignalsSent(events[..|events| - 1], hash)
         + if events[|events| - 1].Signal? && events[|events| - 1].hash == hash then 1 else 0
  }

  function KindSent(events: seq<Event>, hash: string, kind: Kind): nat {
    if events == [] then 0
    else KindSent(events[..|events| - 1], hash, kind)
         + if events[|events| - 1].Signal? && events[|events| - 1].hash == hash && events[|events| - 1].kind == kind then 1 else 0
  }

  lemma {:induction false} TotalsAfterUpdate(rows: seq<Gap>, i: nat, g: Gap, hash: string, kind: Kind)
    requires i < |rows| && g.hash == rows[i].hash
    ensures KindTotal(rows[i := g], hash, kind) + (if g.hash == hash then SignalCount(rows[i], kind) else 0)
         == KindTotal(rows, hash, kind) + if g.hash == hash then SignalCount(g, kind) else 0
    ensures FrequencyTotal(rows[i := g], hash) + (if g.hash == hash then rows[i].frequency else 0)
         == FrequencyTotal(rows, hash) + if g.hash == hash then g.frequency else 0
  {
    var k := |rows| - 1;
    if i < k {
      TotalsAfterUpdate(rows[..k], i, g, hash, kind);
      assert rows[i := g][..k] == rows[..k][i := g];
    } else {
      assert rows[i := g][..k] == rows[..k];
    }
  }

  lemma TotalsAfterStep(rows: seq<Gap>, e: Event, hash: string, kind: Kind)
    ensures KindTotal(Step(rows, e), hash, kind)
         == KindTotal(rows, hash, kind) + if e.Signal? && e.hash == hash && e.kind == kind then 1 else 0
    ensures FrequencyTotal(Step(rows, e), hash)
         == FrequencyTotal(rows, hash) + if e.Signal? && e.hash == hash then 1 else 0
  {
    match e
    case Signal(k, question, h, intent) =>
      OpenRowIsOpen(rows, h);
      var open := OpenRow(rows, h);
      if open.Some? {
        TotalsAfterUpdate(rows, open.value, Counted(rows[open.value], k, question, intent), hash, kind);
      } else {
        assert Step(rows, e)[..|rows|] == rows;
      }
    case Dismiss(id) =>
      if id < |rows| { TotalsAfterUpdate(rows, id, rows[id].(status := Dismissed), hash, kind); }
    case Promote(id, doc) =>
      if id < |rows| { TotalsAfterUpdate(rows, id, rows[id].(status := Promoted, promotedDoc := Some(doc)), hash, kind); }
  }

  /** Over any run, the rows of a question add up to the signals sent for it, in all and by kind. */
  lemma {:induction false} SignalsAreConserved(events: seq<Event>, hash: string, kind: Kind)
    ensures FrequencyTotal(Run(events), hash) == SignalsSent(events, hash)
    ensures KindTotal(Run(events), hash, kind) == KindSent(events, hash, kind)
  {
    if events != [] {
      var before := events[..|events| - 1];
      SignalsAreConserved(before, hash, kind);
      TotalsAfterStep(Run(before), events[|events| - 1], hash, kind);
    }
  }

  predicate RowsAddUp(rows: seq<Gap>) {
    forall i | 0 <= i < |rows| :: rows[i].frequency == TotalSignals(rows[i])
  }

  predicate BothOpen(a: Gap, b: Gap) {
    a.status == Open && b.status == Open && a.hash == b.hash
  }

  predicate OneOpenPerHash(rows: seq<Gap>) {
    forall i, j | 0 <= i < j < |rows| :: !BothOpen(rows[i], rows[j])
  }

  lemma CountedAddsOne(g: Gap, kind: Kind, question: string, hash: string, intent: Option<string>)
    ensures TotalSignals(Counted(g, kind, question, intent)) == TotalSignals(g) + 1
    ensures TotalSignals(NewGap(kind, question, hash, intent)) == 1
  {
    match kind
    case Clarify =>
    case RagRefusal =>
    case LowRetrievalScore =>
    case Handoff =>
    case NegativeFeedback =>
  }

  lemma StepKeepsTable(rows: seq<Gap>, e: Event)
    requires RowsAddUp(rows) && OneOpenPerHash(rows)
    ensures RowsAddUp(Step(rows, e)) && OneOpenPerHash(Step(rows, e))
  {
    if e.Signal? { OpenRowIsOpen(rows, e.hash); }
    var after := Step(rows, e);
    forall i | 0 <= i < |after| ensures after[i].frequency == TotalSignals(after[i]) {
      if i < |rows| { assert rows[i].frequency == TotalSignals(rows[i]); }
      if e.Signal? {
        CountedAddsOne(if i < |rows| then rows[i] else after[i], e.kind, e.question, e.hash, e.intent);
      }
    }
    forall i, j | 0 <= i < j < |after| ensures !BothOpen(after[i], after[j]) {
      if j < |rows| { assert !BothOpen(rows[i], rows[j]); } else { assert !IsOpenFor(rows[i], e.hash); }
    }
  }

  /** In every reachable table each row's frequency is the sum of its signal counts, and no question has
      two open rows. */
  lemma {:induction false} TableIsSound(events: seq<Event>)
    ensures RowsAddUp(Run(events)) && OneOpenPerHash(Run(events))
  {
    if events != [] {
      TableIsSound(events[..|events| - 1]);
      StepKeepsTable(Run(events[..|events| - 1]), events[|events| - 1]);
    }
  }

  /** A row that has left open never reopens and is never counted on again: a question that comes up
      once more opens a new row. */
  lemma {:induction false} ClosedRowsAreFrozen(before: seq<Event>, after: seq<Event>, i: nat)
    requires i < |Run(before)| && Run(before)[i].status != Open
    ensures i < |Run(before + after)| && Run(before + after)[i].status != Open
    ensures Run(before + after)[i].frequency == Run(before)[i].frequency
    ensures Run(before + after)[i].signals == Run(before)[i].signals
  {
    if after == [] {
      assert before + after == before;
    } else {
      var k := |after| - 1;
      ClosedRowsAreFrozen(before, after[..k], i);
      assert (before + after)[..|before + after| - 1] == before + after[..k];
      var rows := Run(before + after[..k]);
      if after[k].Signal? { OpenRowIsOpen(rows, after[k].hash); }
      assert Run(before + after) == Step(rows, after[k]);
    }
  }
}
