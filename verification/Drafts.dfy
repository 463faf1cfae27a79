/** Reviewing knowledge drafts: one pending draft per gap, and publishing an approved draft to the
    database, the object store and the vector store, undone when it fails. */
module Drafts {
  import opened Wrappers

  type DraftId = nat
  type DocId = nat
  type GapId = nat
  type UserId = nat
  type EditId = nat

  datatype Status = Pending | Approved | Rejected

  datatype Draft = Draft(
    gap: Option<GapId>, question: string, answer: string, provenance: string, status: Status,
    reviewedBy: Option<UserId>, reviewNote: Option<string>, publishedDoc: Option<DocId>)

  /** The row of a published document, tagged with its draft; `approved` is the draft as it was approved. */
  datatype Document = Document(draft: DraftId, approved: Draft, active: bool, chunkCount: nat)

  datatype Chunk = Chunk(doc: DocId, index: nat, text: string)

  /** The pending draft that an edit request has read and not yet written. */
  datatype Reading = Reading(draft: DraftId, row: Draft)

  /** The database tables, the object store and the vector store, the edit requests under way, the documents
      out of which a delete has taken chunks, and the deleted ones with the drafts they came from. */
  datatype Stores = Stores(
    drafts: map<DraftId, Draft>, documents: map<DocId, Document>, gaps: set<GapId>, promoted: map<GapId, DocId>,
    objects: map<DocId, string>, chunks: set<Chunk>, edits: map<EditId, Reading>,
    emptied: set<DocId>, deleted: map<DocId, DraftId>)

  /** What goes wrong while a failed publication is undone: nothing; the call that drops the chunks raises (some
      may be gone), the one that drops the bytes does (they may be gone all the same), or the database fails. */
  datatype Undo = UndoWorks | ChunksStay(gone: set<nat>) | BytesStay(deleted: bool) | TablesFail

  /** Where publishing goes wrong: no embedder, storing the bytes (they may be there all the same), indexing
      with some chunks written already, or the database, before the stores are written or after both are. */
  datatype Fault =
    | NoFault
    | NoEmbedder(undo: Undo)
    | PutFails(stored: bool, undo: Undo)
    | IndexFails(written: set<nat>, undo: Undo)
    | DatabaseFails(late: bool)

  datatype Error = NotFound | Conflict | PublishFailed | UndoFailed | DatabaseFailed | Unresolved

  function Render(d: Draft): string {
    "# " + d.question + "\n\n" + d.answer + "\n\n---\n\n" + d.provenance + "\n"
  }

  function ChunksOf(doc: DocId, texts: seq<string>): set<Chunk> {
    set i | 0 <= i < |texts| :: Chunk(doc, i, texts[i])
  }

  function SomeChunksOf(doc: DocId, texts: seq<string>, written: set<nat>): set<Chunk> {
    set i | 0 <= i < |texts| && i in written :: Chunk(doc, i, texts[i])
  }

  function WithoutDoc(chunks: set<Chunk>, doc: DocId): set<Chunk> {
    set c | c in chunks && c.doc != doc
  }

  function WithoutChunks(chunks: set<Chunk>, doc: DocId, gone: set<nat>): set<Chunk> {
    set c | c in chunks && !(c.doc == doc && c.index in gone)
  }

  /** A new document id occurs in none of the three stores, and never did. */
  predicate IsFresh(s: Stores, doc: DocId) {
    && doc !in s.documents && doc !in s.objects && (forall c <- s.chunks :: c.doc != doc)
    && doc !in s.deleted && doc !in s.emptied
  }

  function Empty(gaps: set<GapId>): Stores {
    Stores(map[], map[], gaps, map[], map[], {}, map[], {}, map[])
  }

  predicate IsPendingFor(d: Draft, gap: Option<GapId>) {
    gap.Some? && d.status == Pending && d.gap == gap
  }

  // ---- What the operations do ----

  function Won(d: Draft, reviewer: UserId): Draft {
    d.(status := Approved, reviewedBy := Some(reviewer))
  }

  function Published(s: Stores, id: DraftId, won: Draft, content: string, doc: DocId, texts: seq<string>): Stores {
    s.(documents := s.documents[doc := Document(id, won, true, |texts|)],
       objects := s.objects[doc := content],
       chunks := s.chunks + ChunksOf(doc, texts))
  }

  function Promoted(s: Stores, gap: Option<GapId>, doc: DocId): map<GapId, DocId> {
    if gap.Some? && gap.value in s.gaps then s.promoted[gap.value := doc] else s.promoted
  }

  predicate Reviewable(s: Stores, id: DraftId) {
    id in s.drafts && s.drafts[id].status == Pending
  }

  /** A call inside the publication raises. */
  predicate Raises(fault: Fault) {
    fault.NoEmbedder? || fault.PutFails? || fault.IndexFails?
  }

  /** The bytes are stored, at least for now. */
  predicate Stored(fault: Fault) {
    match fault
    case NoEmbedder(_) => false
    case PutFails(stored, _) => stored
    case _ => true
  }

  /** The chunks that are written, at least for now. */
  function Written(fault: Fault, doc: DocId, texts: seq<string>): set<Chunk> {
    match fault
    case NoEmbedder(_) => {}
    case PutFails(_, _) => {}
    case IndexFails(written, _) => SomeChunksOf(doc, texts, written)
    case _ => ChunksOf(doc, texts)
  }

  /** What undoing comes to. Without an embedder there is no service whose chunks could be dropped. */
  function UndoOutcome(service: bool, undo: Undo): Error {
    match undo
    case UndoWorks => PublishFailed
    case ChunksStay(_) => if service then UndoFailed else PublishFailed
    case BytesStay(_) => UndoFailed
    case TablesFail => DatabaseFailed
  }

  function FaultOutcome(fault: Fault): Option<Error> {
    match fault
    case NoFault => None
    case NoEmbedder(undo) => Some(UndoOutcome(false, undo))
    case PutFails(_, undo) => Some(UndoOutcome(true, undo))
    case IndexFails(_, undo) => Some(UndoOutcome(true, undo))
    case DatabaseFails(_) => Some(DatabaseFailed)
  }

  function ApproveOutcome(s: Stores, id: DraftId, fault: Fault): Option<Error> {
    if id !in s.drafts then Some(NotFound)
    else if s.drafts[id].status != Pending then Some(Conflict)
    else FaultOutcome(fault)
  }

  /** The undo calls come in a fixed order, and one that raises keeps those behind it from being made. */
  predicate BytesSurvive(stored: bool, service: bool, undo: Undo) {
    stored && ((undo.ChunksStay? && service) || (undo.BytesStay? && !undo.deleted))
  }

  /** The bytes of the document stay in the object store. */
  predicate LeavesBytes(fault: Fault) {
    if Raises(fault) then BytesSurvive(Stored(fault), !fault.NoEmbedder?, fault.undo) else fault != DatabaseFails(false)
  }

  /** The chunks that stay in the vector store. */
  function LeftChunks(fault: Fault, doc: DocId, texts: seq<string>): set<Chunk> {
    if Raises(fault) then
      if fault.undo.ChunksStay? then WithoutChunks(Written(fault, doc, texts), doc, fault.undo.gone) else {}
    else if fault == DatabaseFails(false) then {}
    else ChunksOf(doc, texts)
  }

  /** The object store and the vector store after an attempt to publish. */
  function AfterStores(s: Stores, content: string, doc: DocId, texts: seq<string>, fault: Fault): Stores {
    s.(objects := if LeavesBytes(fault) then s.objects[doc := content] else s.objects,
       chunks := s.chunks + LeftChunks(fault, doc, texts))
  }

  function AfterSuccess(s: Stores, id: DraftId, won: Draft, doc: DocId, texts: seq<string>): Stores {
    Published(s, id, won, Render(won), doc, texts).(
      drafts := s.drafts[id := won.(publishedDoc := Some(doc))], promoted := Promoted(s, won.gap, doc))
  }

  function AfterUndone(s: Stores, id: DraftId, reviewer: UserId): Stores
    requires id in s.drafts
  {
    s.(drafts := s.drafts[id := s.drafts[id].(reviewedBy := Some(reviewer))])
  }

  /** Success publishes in all three stores. A failure that is undone leaves them as they were, the draft pending
      again with the name of who tried noted. After any other failure the tables are rolled back, and the other
      two stores keep what the undo has not reached. */
  function AfterApprove(s: Stores, id: DraftId, reviewer: UserId, doc: DocId, texts: seq<string>, fault: Fault): Stores {
    if !Reviewable(s, id) then s
    else if fault == NoFault then AfterSuccess(s, id, Won(s.drafts[id], reviewer), doc, texts)
    else if FaultOutcome(fault) == Some(PublishFailed) then AfterUndone(s, id, reviewer)
    else AfterStores(s, Render(Won(s.drafts[id], reviewer)), doc, texts, fault)
  }

  function AfterReject(s: Stores, id: DraftId, reviewer: UserId, note: Option<string>): Stores {
    if Reviewable(s, id) then
      var d := s.drafts[id];
      s.(drafts := s.drafts[id := d.(status := Rejected, reviewedBy := Some(reviewer),
                                     reviewNote := if note.Some? then note else d.reviewNote)])
    else s
  }

  predicate HasPending(s: Stores, gap: Option<GapId>) {
    exists id <- s.drafts :: IsPendingFor(s.drafts[id], gap)
  }

  function NewDraft(gap: Option<GapId>, question: string, answer: string, provenance: string): Draft {
    Draft(gap, question, answer, provenance, Pending, None, None, None)
  }

  function AfterCreate(s: Stores, id: DraftId, d: Draft): Stores {
    if HasPending(s, d.gap) then s else s.(drafts := s.drafts[id := d])
  }

  function AfterRead(s: Stores, e: EditId, id: DraftId): Stores {
    if Reviewable(s, id) then s.(edits := s.edits[e := Reading(id, s.drafts[id])]) else s
  }

  /** An edit writes the fields that differ from what it has read, whatever has become of the row meanwhile. */
  function Edited(row: Draft, read: Draft, question: Option<string>, answer: Option<string>): Draft {
    row.(question := if question.Some? && question.value != read.question then question.value else row.question,
         answer := if answer.Some? && answer.value != read.answer then answer.value else row.answer)
  }

  function AfterWrite(s: Stores, e: EditId, question: Option<string>, answer: Option<string>): Stores
    requires e in s.edits
  {
    var Reading(id, read) := s.edits[e];
    var s1 := s.(edits := s.edits - {e});
    if id in s.drafts then s1.(drafts := s.drafts[id := Edited(s.drafts[id], read, question, answer)]) else s1
  }

  /** The call of a delete that takes the document's chunks out of the vector store, its transaction still open:
      all of them, or those in `gone` when it raises. */
  function AfterEmpty(s: Stores, doc: DocId, gone: Option<set<nat>>): Stores {
    s.(chunks := if gone.Some? then WithoutChunks(s.chunks, doc, gone.value) else WithoutDoc(s.chunks, doc),
       emptied := s.emptied + {doc})
  }

  /** Its commit removes the row and every reference to it; the bytes stay. */
  function AfterDelete(s: Stores, doc: DocId): Stores
    requires doc in s.documents
  {
    s.(documents := s.documents - {doc},
       drafts := map id | id in s.drafts ::
         if s.drafts[id].publishedDoc == Some(doc) then s.drafts[id].(publishedDoc := None) else s.drafts[id],
       promoted := map gap | gap in s.promoted && s.promoted[gap] != doc :: s.promoted[gap],
       deleted := s.deleted[doc := s.documents[doc].draft])
  }

  function UndoChunks(chunks: set<Chunk>, service: bool, doc: DocId, undo: Undo): set<Chunk> {
    if !service then chunks else if undo.ChunksStay? then WithoutChunks(chunks, doc, undo.gone) else WithoutDoc(chunks, doc)
  }

  function UndoBytes(objects: map<DocId, string>, service: bool, doc: DocId, undo: Undo): map<DocId, string> {
    if BytesSurvive(true, service, undo) then objects else objects - {doc}
  }

  /** Undoing what a raising attempt has written for a new document leaves what the fault says. */
  lemma UndoneStores(objects: map<DocId, string>, chunks: set<Chunk>, content: string, doc: DocId, texts: seq<string>, fault: Fault)
    requires Raises(fault) && doc !in objects && forall c <- chunks :: c.doc != doc
    ensures
      var written := if Stored(fault) then objects[doc := content] else objects;
      UndoBytes(written, !fault.NoEmbedder?, doc, fault.undo) == if LeavesBytes(fault) then objects[doc := content] else objects
    ensures UndoChunks(chunks + Written(fault, doc, texts), !fault.NoEmbedder?, doc, fault.undo)
         == chunks + LeftChunks(fault, doc, texts)
  {
  }

  // ---- What the operations come to, field by field ----

  predicate IsJoined(text: string, before: string, a: string, ab: string, b: string, bc: string, c: string, after: string) {
    text == before + a + ab + b + bc + c + after
  }

  /** The parts stand in the text one behind the other. */
  ghost predicate InOrder(text: string, a: string, b: string, c: string) {
    exists before, ab, bc, after :: IsJoined(text, before, a, ab, b, bc, c, after)
  }

  /** The published text holds the question, the answer and where it comes from. */
  lemma RenderTellsAll(d: Draft)
    ensures InOrder(Render(d), d.question, d.answer, d.provenance)
  {
    assert IsJoined(Render(d), "# ", d.question, "\n\n", d.answer, "\n\n---\n\n", d.provenance, "\n");
  }

  /** A successful approval approves the draft in the reviewer's name, and makes one active document of it, with all
      the chunks and nobody else's touched, and promotes the gap it answers. */
  lemma ApprovalPublishes(s: Stores, id: DraftId, reviewer: UserId, doc: DocId, texts: seq<string>)
    requires Reviewable(s, id)
    ensures
      var s', won := AfterApprove(s, id, reviewer, doc, texts, NoFault),
                     s.drafts[id].(status := Approved, reviewedBy := Some(reviewer));
      && s'.drafts == s.drafts[id := won.(publishedDoc := Some(doc))]
      && s'.documents == s.documents[doc := Document(id, won, true, |texts|)]
      && s'.objects == s.objects[doc := Render(won)]
      && (forall c :: c in s'.chunks <==> c in s.chunks || (c.doc == doc && c.index < |texts| && c.text == texts[c.index]))
      && s'.promoted == (if won.gap.Some? && won.gap.value in s.gaps then s.promoted[won.gap.value := doc] else s.promoted)
      && s'.gaps == s.gaps && s'.edits == s.edits
  {
    forall c: Chunk | c.doc == doc && c.index < |texts| && c.text == texts[c.index] ensures c in ChunksOf(doc, texts) {
      assert c == Chunk(doc, c.index, texts[c.index]);
    }
  }

  /** A rejection, and an approval that fails and is undone, touch this one draft and nothing else. */
  lemma ReviewTouchesDraft(s: Stores, id: DraftId, reviewer: UserId, note: Option<string>, doc: DocId, texts: seq<string>, fault: Fault)
    requires Reviewable(s, id)
    ensures
      var d := s.drafts[id];
      && AfterReject(s, id, reviewer, note) == s.(drafts := s.drafts[id := d.(
           status := Rejected, reviewedBy := Some(reviewer), reviewNote := if note.Some? then note else d.reviewNote)])
      && (FaultOutcome(fault) == Some(PublishFailed) ==>
            AfterApprove(s, id, reviewer, doc, texts, fault) == s.(drafts := s.drafts[id := d.(reviewedBy := Some(reviewer))]))
  {
  }

  /** An edit replaces the question or the answer it brings, unless that is what it has read, and nothing else. */
  lemma EditReplaces(row: Draft, read: Draft, question: Option<string>, answer: Option<string>)
    ensures
      var e := Edited(row, read, question, answer);
      && e == row.(question := e.question, answer := e.answer)
      && (e.question == if question == None || question == Some(read.question) then row.question else question.value)
      && (e.answer == if answer == None || answer == Some(read.answer) then row.answer else answer.value)
  {
  }

  // ---- The services ----

  class Publisher {
    var drafts: map<DraftId, Draft>
    var documents: map<DocId, Document>
    var gaps: set<GapId>
    var promoted: map<GapId, DocId>
    var objects: map<DocId, string>
    var chunks: set<Chunk>
    var edits: map<EditId, Reading>
    var emptied: set<DocId>
    var deleted: map<DocId, DraftId>

    function State(): Stores
      reads this
    {
      Stores(drafts, documents, gaps, promoted, objects, chunks, edits, emptied, deleted)
    }

    constructor (gaps: set<GapId>)
      ensures State() == Empty(gaps)
    {
      drafts, documents, this.gaps, promoted, objects, chunks, edits := map[], map[], gaps, map[], map[], {}, map[];
      emptied, deleted := {}, map[];
    }

    /** Insert, or return the pending draft the gap already has. `raced` names somebody who rejects this one
        before it is read back. */
    method Create(id: DraftId, gap: Option<GapId>, question: string, answer: string, provenance: string,
                  raced: Option<UserId>)
      returns (r: Result<DraftId, Error>)
      requires id !in drafts
      modifies this
      ensures r.Failure? <==> HasPending(old(State()), gap) && raced.Some?
      ensures r.Failure? ==> r.error == Unresolved
      ensures r.Failure? ==> exists found <- old(drafts) ::
        IsPendingFor(old(drafts)[found], gap) && State() == AfterReject(old(State()), found, raced.value, None)
      ensures r.Success? ==> State() == AfterCreate(old(State()), id, NewDraft(gap, question, answer, provenance))
      ensures r.Success? ==> r.value in drafts && drafts[r.value].status == Pending && drafts[r.value].gap == gap
      ensures r.Success? && !HasPending(old(State()), gap) ==>
        r.value == id && drafts == old(drafts)[id := Draft(gap, question, answer, provenance, Pending, None, None, None)]
    {
      if !HasPending(State(), gap) {
        drafts := drafts[id := NewDraft(gap, question, answer, provenance)];
        return Success(id);
      }
      var found :| found in drafts && IsPendingFor(drafts[found], gap);
      match raced
      case None => r := Success(found);
      case Some(reviewer) =>
        var _ := Reject(found, reviewer, None);
        r := Failure(Unresolved);
    }

    /** The first half of an edit: only a pending draft may be edited. */
    method BeginEdit(e: EditId, id: DraftId) returns (r: Option<Error>)
      modifies this`edits
      ensures r == if id !in drafts then Some(NotFound) else if drafts[id].status != Pending then Some(Conflict) else None
      ensures State() == AfterRead(old(State()), e, id)
    {
      if id !in drafts { return Some(NotFound); }
      if drafts[id].status != Pending { return Some(Conflict); }
      edits := edits[e := Reading(id, drafts[id])];
      r := None;
    }

    /** The second half: the write goes by id and does not ask for the status again. */
    method FinishEdit(e: EditId, question: Option<string>, answer: Option<string>)
      requires e in edits
      modifies this`drafts, this`edits
      ensures State() == AfterWrite(old(State()), e, question, answer)
    {
      var Reading(id, read) := edits[e];
      if id in drafts { drafts := drafts[id := Edited(drafts[id], read, question, answer)]; }
      edits := edits - {e};
    }

    method TransitionStatus(id: DraftId, from: Status, to: Status, reviewer: Option<UserId>, note: Option<string>)
      returns (won: bool)
      modifies this`drafts
      ensures won <==> id in old(drafts) && old(drafts)[id].status == from
      ensures drafts == if won then
        var d := old(drafts)[id];
        old(drafts)[id := d.(status := to, reviewedBy := if reviewer.Some? then reviewer else d.reviewedBy,
                             reviewNote := if note.Some? then note else d.reviewNote)]
        else old(drafts)
    {
      won := id in drafts && drafts[id].status == from;
      if won {
        var d := drafts[id];
        drafts := drafts[id := d.(status := to, reviewedBy := if reviewer.Some? then reviewer else d.reviewedBy,
                                  reviewNote := if note.Some? then note else d.reviewNote)];
      }
    }

    /** Undo in reverse order: chunks (once there is a service to delete them), bytes, row. A call that raises
        ends it. */
    method Rollback(service: bool, doc: DocId, undo: Undo) returns (r: Error)
      modifies this`chunks, this`objects, this`documents
      ensures r == UndoOutcome(service, undo)
      ensures r == PublishFailed ==> documents == old(documents) - {doc}
      ensures chunks == UndoChunks(old(chunks), service, doc, undo)
      ensures objects == UndoBytes(old(objects), service, doc, undo)
    {
      if service {
        if undo.ChunksStay? {
          chunks := WithoutChunks(chunks, doc, undo.gone);
          return UndoFailed;
        }
        chunks := WithoutDoc(chunks, doc);
      }
      if undo.BytesStay? {
        if undo.deleted { objects := objects - {doc}; }
        return UndoFailed;
      }
      objects := objects - {doc};
      if undo.TablesFail? { return DatabaseFailed; }
      documents := documents - {doc};
      r := PublishFailed;
    }

    /** The calls that may raise: the bytes, then the chunks. */
    method WriteStores(content: string, doc: DocId, texts: seq<string>, fault: Fault) returns (service: bool, failed: bool)
      modifies this`chunks, this`objects
      ensures service == !fault.NoEmbedder? && failed == Raises(fault)
      ensures objects == if Stored(fault) then old(objects)[doc := content] else old(objects)
      ensures chunks == old(chunks) + Written(fault, doc, texts)
    {
      if fault.NoEmbedder? { return false, true; }
      if !fault.PutFails? || fault.stored { objects := objects[doc := content]; }
      if fault.PutFails? { return true, true; }
      chunks := chunks + if fault.IndexFails? then SomeChunksOf(doc, texts, fault.written) else ChunksOf(doc, texts);
      return true, fault.IndexFails?;
    }

    /** All three stores or none, unless the database fails or the undo does. */
    method PublishDocumentBytes(id: DraftId, won: Draft, content: string, doc: DocId, texts: seq<string>, fault: Fault)
      returns (r: Option<Error>)
      requires IsFresh(State(), doc)
      modifies this`chunks, this`objects, this`documents
      ensures r == FaultOutcome(fault)
      ensures objects == if LeavesBytes(fault) then old(objects)[doc := content] else old(objects)
      ensures chunks == old(chunks) + LeftChunks(fault, doc, texts)
      ensures r == None ==> State() == Published(old(State()), id, won, content, doc, texts)
      ensures r == Some(PublishFailed) ==> State() == old(State())
    {
      if fault == DatabaseFails(false) { return Some(DatabaseFailed); }
      documents := documents[doc := Document(id, won, false, 0)];
      var service, failed := WriteStores(content, doc, texts, fault);
      if failed {
        UndoneStores(old(objects), old(chunks), content, doc, texts, fault);
        var undone := Rollback(service, doc, fault.undo);
        return Some(undone);
      }
      if fault.DatabaseFails? { return Some(DatabaseFailed); }
      documents := documents[doc := Document(id, won, true, |texts|)];
      r := None;
    }

    method PromoteGap(gap: Option<GapId>, doc: DocId)
      modifies this`promoted
      ensures promoted == Promoted(old(State()), gap, doc)
    {
      if gap.Some? && gap.value in gaps { promoted := promoted[gap.value := doc]; }
    }

    /** Win the review, publish, note the document; a failed publication gives the draft back. */
    method Approve(id: DraftId, reviewer: UserId, doc: DocId, texts: seq<string>, fault: Fault) returns (r: Option<Error>)
      requires IsFresh(State(), doc)
      modifies this
      ensures r == ApproveOutcome(old(State()), id, fault)
      ensures State() == AfterApprove(old(State()), id, reviewer, doc, texts, fault)
    {
      if id !in drafts { return Some(NotFound); }
      var begun := drafts;
      var documentsBefore := documents;
      var won := TransitionStatus(id, Pending, Approved, Some(reviewer), None);
      if !won { return Some(Conflict); }
      r := PublishDocumentBytes(id, drafts[id], Render(drafts[id]), doc, texts, fault);
      if r == Some(PublishFailed) {
        var _ := TransitionStatus(id, Approved, Pending, None, None);
        return;
      }
      if r.Some? {
        drafts, documents := begun, documentsBefore;
        assert State() == AfterStores(old(State()), Render(Won(begun[id], reviewer)), doc, texts, fault);
        return;
      }
      drafts := drafts[id := drafts[id].(publishedDoc := Some(doc))];
      PromoteGap(drafts[id].gap, doc);
    }

    method Reject(id: DraftId, reviewer: UserId, note: Option<string>) returns (r: Option<Error>)
      modifies this
      ensures r == if id !in old(drafts) then Some(NotFound) else if old(drafts)[id].status != Pending then Some(Conflict) else None
      ensures State() == AfterReject(old(State()), id, reviewer, note)
    {
      if id !in drafts { return Some(NotFound); }
      var won := TransitionStatus(id, Pending, Rejected, Some(reviewer), note);
      r := if won then None else Some(Conflict);
    }

    /** An administrator deletes a published document: the vector store drops its chunks, or raises with only those
        in `gone` dropped, and then the row goes if the transaction commits. */
    method DeleteDocument(doc: DocId, gone: Option<set<nat>>, commits: bool) returns (r: Option<Error>)
      modifies this
      ensures r ==
        if doc !in old(documents) then Some(NotFound) else if gone.Some? || !commits then Some(DatabaseFailed) else None
      ensures State() ==
        if doc !in old(documents) then old(State())
        else if gone.Some? || !commits then AfterEmpty(old(State()), doc, gone)
        else AfterDelete(AfterEmpty(old(State()), doc, None), doc)
    {
      if doc !in documents { return Some(NotFound); }
      emptied := emptied + {doc};
      if gone.Some? {
        chunks := WithoutChunks(chunks, doc, gone.value);
        return Some(DatabaseFailed);
      }
      chunks := WithoutDoc(chunks, doc);
      if !commits { return Some(DatabaseFailed); }
      deleted := deleted[doc := documents[doc].draft];
      drafts := map id | id in drafts ::
        if drafts[id].publishedDoc == Some(doc) then drafts[id].(publishedDoc := None) else drafts[id];
      promoted := map gap | gap in promoted && promoted[gap] != doc :: promoted[gap];
      documents := documents - {doc};
      r := None;
    }
  }

  // ---- Runs ----

  datatype Event =
    | CreateDraft(id: DraftId, gap: GapId, question: string, answer: string, provenance: string)
    | ReadForEdit(edit: EditId, id: DraftId)
    | WriteEdit(edit: EditId, newQuestion: Option<string>, newAnswer: Option<string>)
    | ApproveDraft(id: DraftId, reviewer: UserId, doc: DocId, texts: seq<string>, fault: Fault)
    | RejectDraft(id: DraftId, reviewer: UserId, note: Option<string>)
    | EmptyDocument(doc: DocId, gone: Option<set<nat>>)
    | DeleteDocument(doc: DocId)

  predicate Enabled(s: Stores, e: Event) {
    match e
    case CreateDraft(id, gap, _, _, _) => id !in s.drafts && gap in s.gaps
    case WriteEdit(edit, _, _) => edit in s.edits
    case ApproveDraft(_, _, doc, _, _) => IsFresh(s, doc)
    case EmptyDocument(doc, _) => doc in s.documents
    case DeleteDocument(doc) => doc in s.documents && doc in s.emptied && forall c <- s.chunks :: c.doc != doc
    case _ => true
  }

  function Step(s: Stores, e: Event): Stores
    requires Enabled(s, e)
  {
    match e
    case CreateDraft(id, gap, question, answer, provenance) =>
      AfterCreate(s, id, NewDraft(Some(gap), question, answer, provenance))
    case ReadForEdit(edit, id) => AfterRead(s, edit, id)
    case WriteEdit(edit, question, answer) => AfterWrite(s, edit, question, answer)
    case ApproveDraft(id, reviewer, doc, texts, fault) => AfterApprove(s, id, reviewer, doc, texts, fault)
    case RejectDraft(id, reviewer, note) => AfterReject(s, id, reviewer, note)
    case EmptyDocument(doc, gone) => AfterEmpty(s, doc, gone)
    case DeleteDocument(doc) => AfterDelete(s, doc)
  }

  predicate IsRun(s: Stores, events: seq<Event>)
    decreases |events|
  {
    events == [] || (Enabled(s, events[0]) && IsRun(Step(s, events[0]), events[1..]))
  }

  function Final(s: Stores, events: seq<Event>): Stores
    requires IsRun(s, events)
    decreases |events|
  {
    if events == [] then s else Final(Step(s, events[0]), events[1..])
  }

  // ---- Invariants ----

  predicate WasDeleted(s: Stores, id: DraftId) {
    exists doc <- s.deleted :: s.deleted[doc] == id
  }

  /** An approved draft and the document it became name each other, unless the document has been deleted. */
  predicate DraftOk(s: Stores, id: DraftId) {
    id in s.drafts &&
    match s.drafts[id].publishedDoc
    case None => s.drafts[id].status == Approved ==> WasDeleted(s, id)
    case Some(doc) => s.drafts[id].status == Approved && doc in s.documents && s.documents[doc].draft == id
  }

  /** A document is whole in all three stores, but for chunks that a delete has taken; its bytes are the draft as
      it was approved, and it belongs to an approved draft. */
  ghost predicate DocumentOk(s: Stores, doc: DocId) {
    && doc in s.documents && s.documents[doc].active
    && s.documents[doc].draft in s.drafts && s.drafts[s.documents[doc].draft].publishedDoc == Some(doc)
    && doc in s.objects && s.objects[doc] == Render(s.documents[doc].approved)
    && (doc !in s.emptied ==> HasChunks(s.chunks, doc, s.documents[doc].chunkCount))
  }

  /** A deleted document came from an approved draft that names no document any more. */
  predicate DeletedOk(s: Stores, doc: DocId) {
    && doc in s.deleted && doc !in s.documents && doc in s.objects
    && s.deleted[doc] in s.drafts && s.drafts[s.deleted[doc]].status == Approved
    && s.drafts[s.deleted[doc]].publishedDoc.None?
  }

  predicate DeletedOnce(deleted: map<DocId, DraftId>) {
    forall a, b | a in deleted && b in deleted && deleted[a] == deleted[b] :: a == b
  }

  /** The store holds the chunks 0 to n - 1 of the document and no others. */
  ghost predicate HasChunks(chunks: set<Chunk>, doc: DocId, n: nat) {
    forall i: nat :: i in IndicesOf(chunks, doc) <==> i < n
  }

  function IndicesOf(chunks: set<Chunk>, doc: DocId): set<nat> {
    set c | c in chunks && c.doc == doc :: c.index
  }

  predicate PendingUnique(drafts: map<DraftId, Draft>) {
    forall i, j | i in drafts && j in drafts && IsPendingFor(drafts[i], drafts[j].gap) && IsPendingFor(drafts[j], drafts[i].gap) :: i == j
  }

  /** A promoted gap points at the document of one of its approved drafts. */
  predicate PromotionOk(s: Stores, gap: GapId) {
    && gap in s.gaps && gap in s.promoted && s.promoted[gap] in s.documents
    && s.documents[s.promoted[gap]].draft in s.drafts && s.drafts[s.documents[s.promoted[gap]].draft].gap == Some(gap)
  }

  ghost predicate Sound(s: Stores) {
    && (forall id <- s.drafts :: DraftOk(s, id))
    && (forall doc <- s.documents :: DocumentOk(s, doc))
    && (forall gap <- s.promoted :: PromotionOk(s, gap))
    && PendingUnique(s.drafts)
    && (forall doc <- s.deleted :: DeletedOk(s, doc))
    && DeletedOnce(s.deleted)
  }

  lemma NewChunks(chunks: set<Chunk>, doc: DocId, texts: seq<string>)
    requires forall c <- chunks :: c.doc != doc
    ensures HasChunks(chunks + ChunksOf(doc, texts), doc, |texts|)
  {
    forall i: nat | i < |texts| ensures i in IndicesOf(chunks + ChunksOf(doc, texts), doc) {
      assert Chunk(doc, i, texts[i]) in ChunksOf(doc, texts);
    }
  }

  lemma OtherChunks(chunks: set<Chunk>, doc: DocId, texts: seq<string>, other: DocId)
    requires other != doc
    ensures IndicesOf(chunks + ChunksOf(doc, texts), other) == IndicesOf(chunks, other)
  {
    forall i | i in IndicesOf(chunks, other) ensures i in IndicesOf(chunks + ChunksOf(doc, texts), other) {
      var c :| c in chunks && c.doc == other && c.index == i;
      assert c in chunks + ChunksOf(doc, texts);
    }
  }

  lemma OthersKeepChunks(s: Stores, doc: DocId, gone: Option<set<nat>>, other: DocId)
    requires other != doc
    ensures IndicesOf(AfterEmpty(s, doc, gone).chunks, other) == IndicesOf(s.chunks, other)
  {
    var left := AfterEmpty(s, doc, gone).chunks;
    forall i | i in IndicesOf(s.chunks, other) ensures i in IndicesOf(left, other) {
      var c :| c in s.chunks && c.doc == other && c.index == i;
      assert c in left;
    }
  }

  lemma ReviewKeepsDraft(s: Stores, e: Event, id: DraftId)
    requires id in s.drafts ==> DraftOk(s, id)
    requires Enabled(s, e) && !e.DeleteDocument? && !e.ApproveDraft? && id in Step(s, e).drafts
    ensures DraftOk(Step(s, e), id)
  {
    OnlyDeletesDelete(s, e);
  }

  lemma ApprovalKeepsDraft(s: Stores, e: Event, id: DraftId)
    requires id in s.drafts && DraftOk(s, id) && Enabled(s, e) && e.ApproveDraft?
    ensures DraftOk(Step(s, e), id)
  {
    OnlyDeletesDelete(s, e);
  }

  lemma OnlyDeletesDelete(s: Stores, e: Event)
    requires Enabled(s, e) && !e.DeleteDocument?
    ensures Step(s, e).deleted == s.deleted && forall doc <- s.documents :: doc in Step(s, e).documents
  {
  }

  lemma DeleteKeepsDraft(s: Stores, doc: DocId, id: DraftId)
    requires id in s.drafts && DraftOk(s, id) && doc in s.documents && doc !in s.deleted
    ensures DraftOk(AfterDelete(s, doc), id)
  {
    var s' := AfterDelete(s, doc);
    if s.drafts[id].publishedDoc == Some(doc) {
      assert s'.deleted[doc] == id;
    } else if WasDeleted(s, id) {
      var other :| other in s.deleted && s.deleted[other] == id;
      assert s'.deleted[other] == id;
    }
  }

  /** A step that touches neither the document, its bytes, its chunks nor what its draft names. */
  lemma DocumentStays(s: Stores, s': Stores, doc: DocId)
    requires DocumentOk(s, doc)
    requires doc in s'.documents && s'.documents[doc] == s.documents[doc]
    requires s.documents[doc].draft in s'.drafts
    requires s'.drafts[s.documents[doc].draft].publishedDoc == s.drafts[s.documents[doc].draft].publishedDoc
    requires doc in s'.objects && s'.objects[doc] == s.objects[doc]
    requires doc in s'.emptied || (doc !in s.emptied && IndicesOf(s'.chunks, doc) == IndicesOf(s.chunks, doc))
    ensures DocumentOk(s', doc)
  {
  }

  lemma LeftChunksAreOfDoc(fault: Fault, doc: DocId, texts: seq<string>)
    ensures forall c <- LeftChunks(fault, doc, texts) :: c.doc == doc
  {
  }

  /** An approval writes no other document's bytes or chunks. */
  lemma ApprovalSparesOthers(s: Stores, e: Event, doc: DocId)
    requires Enabled(s, e) && e.ApproveDraft? && e.doc != doc
    ensures IndicesOf(Step(s, e).chunks, doc) == IndicesOf(s.chunks, doc)
    ensures doc in s.objects ==> doc in Step(s, e).objects && Step(s, e).objects[doc] == s.objects[doc]
  {
    LeftChunksAreOfDoc(e.fault, e.doc, e.texts);
    LeftChunksAreOfDoc(NoFault, e.doc, e.texts);
    OtherDocChunks(s.chunks, LeftChunks(e.fault, e.doc, e.texts), doc);
    OtherDocChunks(s.chunks, ChunksOf(e.doc, e.texts), doc);
  }

  lemma OtherDocChunks(chunks: set<Chunk>, more: set<Chunk>, doc: DocId)
    requires forall c <- more :: c.doc != doc
    ensures IndicesOf(chunks + more, doc) == IndicesOf(chunks, doc)
  {
    forall i | i in IndicesOf(chunks, doc) ensures i in IndicesOf(chunks + more, doc) {
      var c :| c in chunks && c.doc == doc && c.index == i;
      assert c in chunks + more;
    }
  }

  lemma ApprovalKeepsOld(s: Stores, e: Event, doc: DocId)
    requires DocumentOk(s, doc) && DraftOk(s, s.documents[doc].draft) && Enabled(s, e) && e.ApproveDraft?
    ensures DocumentOk(Step(s, e), doc)
  {
    ApprovalSparesOthers(s, e, doc);
    DocumentStays(s, Step(s, e), doc);
  }

  lemma ApprovalMakesNew(s: Stores, e: Event)
    requires Enabled(s, e) && e.ApproveDraft? && e.doc in Step(s, e).documents
    ensures DocumentOk(Step(s, e), e.doc)
  {
    NewChunks(s.chunks, e.doc, e.texts);
  }

  lemma ReviewKeepsDocument(s: Stores, e: Event, doc: DocId)
    requires DocumentOk(s, doc) && DraftOk(s, s.documents[doc].draft) && Enabled(s, e)
    requires !e.ApproveDraft? && !e.EmptyDocument? && !e.DeleteDocument?
    ensures DocumentOk(Step(s, e), doc)
  {
    DocumentStays(s, Step(s, e), doc);
  }

  lemma DeletingKeepsDocument(s: Stores, e: Event, doc: DocId)
    requires DocumentOk(s, doc) && Enabled(s, e) && doc in Step(s, e).documents
    requires e.EmptyDocument? || e.DeleteDocument?
    ensures DocumentOk(Step(s, e), doc)
  {
    if e.EmptyDocument? && e.doc != doc { OthersKeepChunks(s, e.doc, e.gone, doc); }
    DocumentStays(s, Step(s, e), doc);
  }

  lemma StepAddsDocument(s: Stores, e: Event, doc: DocId)
    requires Enabled(s, e) && doc in Step(s, e).documents && doc !in s.documents
    ensures e.ApproveDraft? && doc == e.doc
  {
  }

  lemma StepKeepsDocument(s: Stores, e: Event, doc: DocId)
    requires Sound(s) && Enabled(s, e) && doc in Step(s, e).documents
    ensures DocumentOk(Step(s, e), doc)
  {
    if doc !in s.documents {
      StepAddsDocument(s, e, doc);
      ApprovalMakesNew(s, e);
    } else {
      assert DocumentOk(s, doc);
      assert DraftOk(s, s.documents[doc].draft);
      if e.ApproveDraft? { ApprovalKeepsOld(s, e, doc); }
      else if e.EmptyDocument? || e.DeleteDocument? { DeletingKeepsDocument(s, e, doc); }
      else { ReviewKeepsDocument(s, e, doc); }
    }
  }

  lemma PromotionStays(s: Stores, s': Stores, gap: GapId)
    requires PromotionOk(s, gap) && s'.gaps == s.gaps
    requires gap in s'.promoted && s'.promoted[gap] == s.promoted[gap]
    requires s.promoted[gap] in s'.documents && s'.documents[s.promoted[gap]] == s.documents[s.promoted[gap]]
    requires
      var id := s.documents[s.promoted[gap]].draft;
      id in s'.drafts && s'.drafts[id].gap == s.drafts[id].gap
    ensures PromotionOk(s', gap)
  {
  }

  lemma StepFreezesDocument(s: Stores, e: Event, doc: DocId)
    requires Enabled(s, e) && doc in s.documents
    ensures if e == DeleteDocument(doc) then doc in Step(s, e).deleted && Step(s, e).deleted[doc] == s.documents[doc].draft
            else doc in Step(s, e).documents && Step(s, e).documents[doc] == s.documents[doc]
  {
  }

  lemma StepKeepsGaps(s: Stores, e: Event, id: DraftId)
    requires Enabled(s, e) && id in s.drafts
    ensures Step(s, e).gaps == s.gaps && id in Step(s, e).drafts && Step(s, e).drafts[id].gap == s.drafts[id].gap
  {
    match e {
      case ApproveDraft(k, reviewer, doc, texts, fault) => ApprovalKeepsGaps(s, k, reviewer, doc, texts, fault, id);
      case CreateDraft(_, _, _, _, _) =>
      case ReadForEdit(_, _) =>
      case WriteEdit(_, _, _) =>
      case RejectDraft(_, _, _) =>
      case EmptyDocument(_, _) =>
      case DeleteDocument(_) =>
    }
  }

  lemma ApprovalKeepsGaps(s: Stores, k: DraftId, reviewer: UserId, doc: DocId, texts: seq<string>, fault: Fault, id: DraftId)
    requires id in s.drafts
    ensures
      var s' := AfterApprove(s, k, reviewer, doc, texts, fault);
      s'.gaps == s.gaps && id in s'.drafts && s'.drafts[id].gap == s.drafts[id].gap
  {
    if !Reviewable(s, k) {
    } else if fault == NoFault {
      assert AfterApprove(s, k, reviewer, doc, texts, fault).drafts
          == s.drafts[k := Won(s.drafts[k], reviewer).(publishedDoc := Some(doc))];
    } else if FaultOutcome(fault) == Some(PublishFailed) {
    } else {
      assert AfterApprove(s, k, reviewer, doc, texts, fault).drafts == s.drafts;
    }
  }

  lemma ReviewKeepsPromotion(s: Stores, e: Event, gap: GapId)
    requires PromotionOk(s, gap) && Enabled(s, e) && !e.DeleteDocument? && Step(s, e).promoted == s.promoted
    ensures PromotionOk(Step(s, e), gap)
  {
    StepFreezesDocument(s, e, s.promoted[gap]);
    StepKeepsGaps(s, e, s.documents[s.promoted[gap]].draft);
    PromotionStays(s, Step(s, e), gap);
  }

  lemma ApprovalKeepsPromotion(s: Stores, e: Event, gap: GapId)
    requires gap in s.promoted ==> PromotionOk(s, gap)
    requires Enabled(s, e) && e.ApproveDraft? && ApproveOutcome(s, e.id, e.fault) == None
    requires gap in Step(s, e).promoted
    ensures PromotionOk(Step(s, e), gap)
  {
    if gap in s.promoted && Step(s, e).promoted[gap] == s.promoted[gap] { PromotionStays(s, Step(s, e), gap); }
  }

  lemma OnlyApprovalPromotes(s: Stores, e: Event)
    requires Enabled(s, e) && (e.ApproveDraft? ==> ApproveOutcome(s, e.id, e.fault) != None) && !e.DeleteDocument?
    ensures Step(s, e).promoted == s.promoted
  {
  }

  lemma StepKeepsPromotion(s: Stores, e: Event, gap: GapId)
    requires (gap in s.promoted ==> PromotionOk(s, gap)) && Enabled(s, e) && gap in Step(s, e).promoted
    ensures PromotionOk(Step(s, e), gap)
  {
    if e.ApproveDraft? && ApproveOutcome(s, e.id, e.fault) == None {
      ApprovalKeepsPromotion(s, e, gap);
    } else if e.DeleteDocument? {
      PromotionStays(s, Step(s, e), gap);
    } else {
      OnlyApprovalPromotes(s, e);
      ReviewKeepsPromotion(s, e, gap);
    }
  }

  lemma StepKeepsBytes(s: Stores, e: Event, doc: DocId)
    requires Enabled(s, e) && doc in s.objects
    ensures doc in Step(s, e).objects && Step(s, e).objects[doc] == s.objects[doc]
  {
  }

  /** A draft that is approved and names no document is left alone but for its body. */
  lemma ApprovedStays(s: Stores, e: Event, id: DraftId)
    requires Enabled(s, e) && id in s.drafts && s.drafts[id].status == Approved && s.drafts[id].publishedDoc.None?
    ensures id in Step(s, e).drafts && Step(s, e).drafts[id].status == Approved && Step(s, e).drafts[id].publishedDoc.None?
  {
  }

  lemma DeletedIsNotRestored(s: Stores, e: Event, doc: DocId)
    requires Enabled(s, e) && doc in s.deleted && doc !in s.documents
    ensures doc !in Step(s, e).documents && doc in Step(s, e).deleted && Step(s, e).deleted[doc] == s.deleted[doc]
  {
  }

  lemma DeleteMakesDeleted(s: Stores, doc: DocId)
    requires DocumentOk(s, doc) && DraftOk(s, s.documents[doc].draft)
    ensures DeletedOk(AfterDelete(s, doc), doc)
  {
  }

  lemma StepKeepsDeleted(s: Stores, e: Event, doc: DocId)
    requires Sound(s) && Enabled(s, e) && doc in Step(s, e).deleted
    ensures DeletedOk(Step(s, e), doc)
  {
    if doc in s.deleted {
      assert DeletedOk(s, doc);
      ApprovedStays(s, e, s.deleted[doc]);
      DeletedIsNotRestored(s, e, doc);
      StepKeepsBytes(s, e, doc);
    } else {
      if !e.DeleteDocument? { OnlyDeletesDelete(s, e); }
      assert DocumentOk(s, doc) && DraftOk(s, s.documents[doc].draft);
      DeleteMakesDeleted(s, doc);
    }
  }

  lemma StepKeepsDeletedOnce(s: Stores, e: Event)
    requires Sound(s) && Enabled(s, e)
    ensures DeletedOnce(Step(s, e).deleted)
  {
    if e.DeleteDocument? {
      assert DocumentOk(s, e.doc);
      forall a | a in s.deleted ensures s.deleted[a] != s.documents[e.doc].draft {
        assert DeletedOk(s, a);
      }
    } else {
      OnlyDeletesDelete(s, e);
    }
  }

  lemma StepKeepsPendingUnique(s: Stores, e: Event)
    requires PendingUnique(s.drafts) && Enabled(s, e)
    ensures PendingUnique(Step(s, e).drafts)
  {
  }

  lemma StepKeepsSound(s: Stores, e: Event)
    requires Sound(s) && Enabled(s, e)
    ensures Sound(Step(s, e))
  {
    var s' := Step(s, e);
    forall id | id in s'.drafts ensures DraftOk(s', id) {
      assert id in s.drafts ==> DraftOk(s, id);
      if e.DeleteDocument? {
        assert e.doc in s.deleted ==> DeletedOk(s, e.doc);
        DeleteKeepsDraft(s, e.doc, id);
      } else if e.ApproveDraft? {
        ApprovalKeepsDraft(s, e, id);
      } else {
        ReviewKeepsDraft(s, e, id);
      }
    }
    forall doc | doc in s'.documents ensures DocumentOk(s', doc) { StepKeepsDocument(s, e, doc); }
    forall gap | gap in s'.promoted ensures PromotionOk(s', gap) { StepKeepsPromotion(s, e, gap); }
    StepKeepsPendingUnique(s, e);
    forall doc | doc in s'.deleted ensures DeletedOk(s', doc) { StepKeepsDeleted(s, e, doc); }
    StepKeepsDeletedOnce(s, e);
  }

  lemma {:induction false} RunKeepsSound(s: Stores, events: seq<Event>)
    requires Sound(s) && IsRun(s, events)
    ensures Sound(Final(s, events))
    decreases |events|
  {
    if events != [] {
      StepKeepsSound(s, events[0]);
      RunKeepsSound(Step(s, events[0]), events[1..]);
    }
  }

  /** The document was made from the draft, and is there or has been deleted. */
  predicate Became(s: Stores, id: DraftId, doc: DocId) {
    (doc in s.documents && s.documents[doc].draft == id) || (doc in s.deleted && s.deleted[doc] == id)
  }

  lemma BecameOne(s: Stores, id: DraftId, a: DocId, b: DocId)
    requires Sound(s) && Became(s, id, a) && Became(s, id, b)
    ensures a == b
  {
    assert a in s.documents ==> DocumentOk(s, a);
    assert b in s.documents ==> DocumentOk(s, b);
    assert a in s.deleted ==> DeletedOk(s, a);
    assert b in s.deleted ==> DeletedOk(s, b);
  }

  lemma ApprovedIffBecame(s: Stores, id: DraftId)
    requires Sound(s) && id in s.drafts
    ensures s.drafts[id].status == Approved <==> exists doc :: Became(s, id, doc)
  {
    assert DraftOk(s, id);
    if s.drafts[id].publishedDoc.Some? {
      assert Became(s, id, s.drafts[id].publishedDoc.value);
    } else if s.drafts[id].status == Approved {
      var doc :| doc in s.deleted && s.deleted[doc] == id;
      assert Became(s, id, doc);
    }
    forall doc | Became(s, id, doc) ensures s.drafts[id].status == Approved {
      assert doc in s.documents ==> DocumentOk(s, doc);
      assert doc in s.deleted ==> DeletedOk(s, doc);
    }
  }

  /** Over any run of drafting, editing, approving, rejecting and deleting, with failures anywhere: a draft becomes
      at most one document, and exactly the approved drafts become one, which is there or has been deleted; what is
      there is whole in all three stores with the bytes of the draft as it was approved, but for chunks that a
      delete has taken; and no gap has two pending drafts. */
  lemma OneDocumentPerDraft(gaps: set<GapId>, events: seq<Event>)
    requires IsRun(Empty(gaps), events)
    ensures
      var s := Final(Empty(gaps), events);
      && (forall id, a, b | Became(s, id, a) && Became(s, id, b) :: a == b)
      && (forall id <- s.drafts :: s.drafts[id].status == Approved <==> exists doc :: Became(s, id, doc))
      && (forall doc <- s.documents :: DocumentOk(s, doc))
      && PendingUnique(s.drafts)
  {
    RunKeepsSound(Empty(gaps), events);
    var s := Final(Empty(gaps), events);
    forall id, a, b | Became(s, id, a) && Became(s, id, b) ensures a == b { BecameOne(s, id, a, b); }
    forall id | id in s.drafts ensures s.drafts[id].status == Approved <==> exists doc :: Became(s, id, doc) {
      ApprovedIffBecame(s, id);
    }
  }

  /** Over any run the bytes of every document tell the question, the answer and the provenance of the draft as it
      was approved. */
  lemma PublishedBytesTellAll(gaps: set<GapId>, events: seq<Event>, doc: DocId)
    requires IsRun(Empty(gaps), events) && doc in Final(Empty(gaps), events).documents
    ensures
      var s := Final(Empty(gaps), events);
      var d := s.documents[doc].approved;
      doc in s.objects && InOrder(s.objects[doc], d.question, d.answer, d.provenance)
  {
    RunKeepsSound(Empty(gaps), events);
    assert DocumentOk(Final(Empty(gaps), events), doc);
    RenderTellsAll(Final(Empty(gaps), events).documents[doc].approved);
  }

  // ---- Edits of approved drafts ----

  /** The published bytes still are what the draft's row says. */
  predicate BytesMatch(s: Stores, doc: DocId) {
    doc in s.documents && doc in s.objects && s.documents[doc].draft in s.drafts
    ==> s.objects[doc] == Render(s.drafts[s.documents[doc].draft])
  }

  predicate AllMatch(s: Stores) {
    forall doc <- s.documents :: BytesMatch(s, doc)
  }

  /** When an edit is about to be written, every outcome of it leaves all published bytes as their rows say
      exactly when the draft has no published document by then, whatever it was when the edit read it. */
  lemma EditIsSafeIff(s: Stores, e: EditId)
    requires Sound(s) && AllMatch(s) && e in s.edits && s.edits[e].draft in s.drafts
    ensures (forall q, a :: AllMatch(AfterWrite(s, e, q, a))) <==> s.drafts[s.edits[e].draft].publishedDoc.None?
  {
    var id := s.edits[e].draft;
    assert DraftOk(s, id);
    if s.drafts[id].publishedDoc.None? {
      forall q, a ensures AllMatch(AfterWrite(s, e, q, a)) {
        UnpublishedEditKeepsMatch(s, e, q, a);
      }
    } else {
      var doc := s.drafts[id].publishedDoc.value;
      assert DocumentOk(s, doc);
      var q := Some(s.edits[e].row.question + s.drafts[id].question + "!");
      LongerQuestionBreaksMatch(s, e, q, doc);
      assert !AllMatch(AfterWrite(s, e, q, None));
    }
  }

  lemma UnpublishedEditKeepsMatch(s: Stores, e: EditId, q: Option<string>, a: Option<string>)
    requires Sound(s) && AllMatch(s) && e in s.edits
    requires s.edits[e].draft in s.drafts ==> s.drafts[s.edits[e].draft].publishedDoc.None?
    ensures AllMatch(AfterWrite(s, e, q, a))
  {
    forall doc | doc in s.documents ensures BytesMatch(AfterWrite(s, e, q, a), doc) {
      assert DocumentOk(s, doc) && DraftOk(s, s.documents[doc].draft) && BytesMatch(s, doc);
    }
  }

  lemma LongerQuestionBreaksMatch(s: Stores, e: EditId, q: Option<string>, doc: DocId)
    requires DocumentOk(s, doc) && BytesMatch(s, doc) && e in s.edits && s.edits[e].draft == s.documents[doc].draft
    requires q.Some? && q.value != s.edits[e].row.question && |q.value| > |s.drafts[s.edits[e].draft].question|
    ensures !BytesMatch(AfterWrite(s, e, q, None), doc)
  {
    var id := s.edits[e].draft;
    var row := Edited(s.drafts[id], s.edits[e].row, q, None);
    assert |Render(row)| > |Render(s.drafts[id])|;
  }

  /** No edit of the run is written over a draft that has a published document. */
  predicate EditsInTime(s: Stores, events: seq<Event>)
    requires IsRun(s, events)
    decreases |events|
  {
    events == [] ||
    (EditInTime(s, events[0]) && EditsInTime(Step(s, events[0]), events[1..]))
  }

  predicate EditInTime(s: Stores, e: Event) {
    e.WriteEdit? && e.edit in s.edits && s.edits[e.edit].draft in s.drafts ==>
      s.drafts[s.edits[e.edit].draft].publishedDoc.None?
  }

  lemma ApprovalSparesMatch(s: Stores, e: Event, doc: DocId)
    requires DocumentOk(s, doc) && DraftOk(s, s.documents[doc].draft) && BytesMatch(s, doc)
    requires Enabled(s, e) && e.ApproveDraft?
    ensures BytesMatch(Step(s, e), doc)
  {
    ApprovalSparesOthers(s, e, doc);
  }

  lemma ApprovalMatches(s: Stores, e: Event)
    requires Enabled(s, e) && e.ApproveDraft? && e.doc in Step(s, e).documents
    ensures BytesMatch(Step(s, e), e.doc)
  {
  }

  lemma ApprovalKeepsMatch(s: Stores, e: Event)
    requires Sound(s) && AllMatch(s) && Enabled(s, e) && e.ApproveDraft?
    ensures AllMatch(Step(s, e))
  {
    var s' := Step(s, e);
    forall doc | doc in s'.documents ensures BytesMatch(s', doc) {
      if doc in s.documents {
        assert DocumentOk(s, doc) && DraftOk(s, s.documents[doc].draft) && BytesMatch(s, doc);
        ApprovalSparesMatch(s, e, doc);
      } else {
        StepAddsDocument(s, e, doc);
        ApprovalMatches(s, e);
      }
    }
  }

  lemma DeleteKeepsMatch(s: Stores, e: Event)
    requires Sound(s) && AllMatch(s) && Enabled(s, e) && (e.EmptyDocument? || e.DeleteDocument?)
    ensures AllMatch(Step(s, e))
  {
    var s' := Step(s, e);
    forall doc | doc in s'.documents ensures BytesMatch(s', doc) {
      assert BytesMatch(s, doc);
    }
  }

  lemma StepAddsNoDocument(s: Stores, e: Event)
    requires Enabled(s, e) && !e.ApproveDraft? && !e.EmptyDocument? && !e.DeleteDocument?
    ensures Step(s, e).documents == s.documents && Step(s, e).objects == s.objects
  {
  }

  lemma ReviewKeepsPublished(s: Stores, e: Event, id: DraftId)
    requires Enabled(s, e) && (e.CreateDraft? || e.ReadForEdit? || e.RejectDraft?)
    requires id in s.drafts && s.drafts[id].status == Approved
    ensures id in Step(s, e).drafts && Step(s, e).drafts[id] == s.drafts[id]
  {
  }

  lemma ReviewKeepsMatch(s: Stores, e: Event)
    requires Sound(s) && AllMatch(s) && Enabled(s, e) && (e.CreateDraft? || e.ReadForEdit? || e.RejectDraft?)
    ensures AllMatch(Step(s, e))
  {
    var s' := Step(s, e);
    forall doc | doc in s'.documents ensures BytesMatch(s', doc) {
      StepAddsNoDocument(s, e);
      assert DocumentOk(s, doc) && DraftOk(s, s.documents[doc].draft) && BytesMatch(s, doc);
      ReviewKeepsPublished(s, e, s.documents[doc].draft);
    }
  }

  lemma {:induction false} EditsInTimeKeepMatch(s: Stores, events: seq<Event>)
    requires Sound(s) && AllMatch(s) && IsRun(s, events) && EditsInTime(s, events)
    ensures AllMatch(Final(s, events))
    decreases |events|
  {
    if events != [] {
      var e := events[0];
      StepKeepsSound(s, e);
      if e.WriteEdit? { UnpublishedEditKeepsMatch(s, e.edit, e.newQuestion, e.newAnswer); }
      else if e.ApproveDraft? { ApprovalKeepsMatch(s, e); }
      else if e.EmptyDocument? || e.DeleteDocument? { DeleteKeepsMatch(s, e); }
      else { ReviewKeepsMatch(s, e); }
      EditsInTimeKeepMatch(Step(s, e), events[1..]);
    }
  }

  /** As long as no edit is written over a published draft, every document's bytes are its draft's row. */
  lemma BytesAreTheRow(gaps: set<GapId>, events: seq<Event>, doc: DocId)
    requires IsRun(Empty(gaps), events) && EditsInTime(Empty(gaps), events)
    requires doc in Final(Empty(gaps), events).documents
    ensures
      var s := Final(Empty(gaps), events);
      doc in s.objects && s.documents[doc].draft in s.drafts
      && s.objects[doc] == Render(s.drafts[s.documents[doc].draft])
  {
    RunKeepsSound(Empty(gaps), events);
    EditsInTimeKeepMatch(Empty(gaps), events);
    assert DocumentOk(Final(Empty(gaps), events), doc) && BytesMatch(Final(Empty(gaps), events), doc);
  }

  /** An edit that reads a pending draft just before its approval and writes just after it leaves the
      approved row and the published bytes telling different things. */
  lemma EditAfterApproval(s: Stores, e: EditId, id: DraftId, reviewer: UserId, doc: DocId, texts: seq<string>, question: string)
    requires Sound(s) && Reviewable(s, id) && IsFresh(s, doc) && |question| > |s.drafts[id].question|
    ensures
      var events := [ReadForEdit(e, id), ApproveDraft(id, reviewer, doc, texts, NoFault), WriteEdit(e, Some(question), None)];
      && IsRun(s, events)
      && var s' := Final(s, events);
        id in s'.drafts && s'.drafts[id].status == Approved && s'.drafts[id].publishedDoc == Some(doc)
        && doc in s'.documents && !BytesMatch(s', doc)
  {
    var read := Step(s, ReadForEdit(e, id));
    var approved := Step(read, ApproveDraft(id, reviewer, doc, texts, NoFault));
    var written := Step(approved, WriteEdit(e, Some(question), None));
    StepKeepsSound(s, ReadForEdit(e, id));
    StepKeepsSound(read, ApproveDraft(id, reviewer, doc, texts, NoFault));
    assert DocumentOk(approved, doc);
    LongerQuestionBreaksMatch(approved, e, Some(question), doc);
    ThreeSteps(s, ReadForEdit(e, id), ApproveDraft(id, reviewer, doc, texts, NoFault), WriteEdit(e, Some(question), None));
  }

  lemma ThreeSteps(s: Stores, e1: Event, e2: Event, e3: Event)
    requires Enabled(s, e1) && Enabled(Step(s, e1), e2) && Enabled(Step(Step(s, e1), e2), e3)
    ensures IsRun(s, [e1, e2, e3]) && Final(s, [e1, e2, e3]) == Step(Step(Step(s, e1), e2), e3)
  {
    var s1, s2 := Step(s, e1), Step(Step(s, e1), e2);
    var s3 := Step(s2, e3);
    assert [e1, e2, e3][1..] == [e2, e3] && [e2, e3][1..] == [e3] && [e3][1..] == [];
    assert IsRun(s3, []) && Final(s3, []) == s3;
    assert IsRun(s2, [e3]) && Final(s2, [e3]) == s3;
    assert IsRun(s1, [e2, e3]) && Final(s1, [e2, e3]) == s3;
  }

  lemma {:induction false} DeletedStays(s: Stores, events: seq<Event>, doc: DocId)
    requires IsRun(s, events) && doc in s.deleted && doc !in s.documents
    ensures doc in Final(s, events).deleted && Final(s, events).deleted[doc] == s.deleted[doc]
    ensures doc !in Final(s, events).documents
    decreases |events|
  {
    if events != [] {
      DeletedIsNotRestored(s, events[0], doc);
      DeletedStays(Step(s, events[0]), events[1..], doc);
    }
  }

  lemma {:induction false} BytesStay(s: Stores, events: seq<Event>, doc: DocId)
    requires IsRun(s, events) && doc in s.objects
    ensures doc in Final(s, events).objects && Final(s, events).objects[doc] == s.objects[doc]
    decreases |events|
  {
    if events != [] {
      StepKeepsBytes(s, events[0], doc);
      BytesStay(Step(s, events[0]), events[1..], doc);
    }
  }

  /** Over every run a document's row stays as it was approved until its delete commits, and then it is gone for
      good; its bytes stay even then. */
  lemma {:induction false} DocumentsAreFrozen(s: Stores, events: seq<Event>, doc: DocId)
    requires IsRun(s, events) && doc in s.documents && doc in s.objects
    ensures
      var s' := Final(s, events);
      if DeleteDocument(doc) in events then
        doc !in s'.documents && doc in s'.deleted && s'.deleted[doc] == s.documents[doc].draft
      else doc in s'.documents && s'.documents[doc] == s.documents[doc]
    ensures doc in Final(s, events).objects && Final(s, events).objects[doc] == s.objects[doc]
    decreases |events|
  {
    BytesStay(s, events, doc);
    if events != [] {
      StepFreezesDocument(s, events[0], doc);
      if events[0] == DeleteDocument(doc) {
        DeletedStays(Step(s, events[0]), events[1..], doc);
      } else {
        StepKeepsBytes(s, events[0], doc);
        DocumentsAreFrozen(Step(s, events[0]), events[1..], doc);
      }
    }
  }

  // ---- Failed publications ----

  /** A publication that fails and is undone leaves everything as it was but the name of who tried, so that the
      approval can be tried again and then publishes exactly what it would have published at first. */
  lemma FailedApprovalCanBeRetried(s: Stores, id: DraftId, r1: UserId, r2: UserId, doc1: DocId, doc2: DocId,
                                   t1: seq<string>, t2: seq<string>, fault: Fault)
    requires ApproveOutcome(s, id, fault) == Some(PublishFailed)
    ensures AfterApprove(AfterApprove(s, id, r1, doc1, t1, fault), id, r2, doc2, t2, NoFault)
         == AfterApprove(s, id, r2, doc2, t2, NoFault)
  {
    var failed := AfterApprove(s, id, r1, doc1, t1, fault);
    var d := s.drafts[id].(status := Approved, reviewedBy := Some(r2), publishedDoc := Some(doc2));
    assert failed.drafts[id := d] == s.drafts[id := d];
  }

  /** After any other failure a retry does the same, but for what the first attempt has left of its own document
      in the object store and in the vector store. */
  lemma AnyFailureCanBeRetried(s: Stores, id: DraftId, r1: UserId, r2: UserId, doc1: DocId, doc2: DocId,
                               t1: seq<string>, t2: seq<string>, fault: Fault)
    requires Reviewable(s, id) && fault != NoFault && IsFresh(s, doc1) && IsFresh(s, doc2) && doc1 != doc2
    ensures
      var retried := AfterApprove(AfterApprove(s, id, r1, doc1, t1, fault), id, r2, doc2, t2, NoFault);
      var first := AfterApprove(s, id, r2, doc2, t2, NoFault);
      && retried.(objects := first.objects, chunks := first.chunks) == first
      && retried.objects - {doc1} == first.objects && WithoutDoc(retried.chunks, doc1) == first.chunks
  {
    var failed := AfterApprove(s, id, r1, doc1, t1, fault);
    FailureKeepsTables(s, id, r1, doc1, t1, fault);
    FailureLeavesOwn(s, id, r1, doc1, t1, fault);
    RetryPublishes(s, failed, id, r2, doc2, t2);
    var content := Render(Won(s.drafts[id], r2));
    assert failed.objects[doc2 := content] - {doc1} == (failed.objects - {doc1})[doc2 := content];
    assert WithoutDoc(failed.chunks + ChunksOf(doc2, t2), doc1) == WithoutDoc(failed.chunks, doc1) + ChunksOf(doc2, t2);
  }

  /** The tables are as they were, but for the name of who tried. */
  predicate SameTables(s: Stores, s': Stores, id: DraftId) {
    && s' == s.(drafts := s'.drafts, objects := s'.objects, chunks := s'.chunks)
    && id in s.drafts && id in s'.drafts && s'.drafts == s.drafts[id := s'.drafts[id]]
    && s'.drafts[id] == s.drafts[id].(reviewedBy := s'.drafts[id].reviewedBy)
  }

  lemma FailureKeepsTables(s: Stores, id: DraftId, reviewer: UserId, doc: DocId, texts: seq<string>, fault: Fault)
    requires Reviewable(s, id) && fault != NoFault
    ensures SameTables(s, AfterApprove(s, id, reviewer, doc, texts, fault), id)
  {
  }

  lemma RetryPublishes(s: Stores, failed: Stores, id: DraftId, reviewer: UserId, doc: DocId, texts: seq<string>)
    requires Reviewable(s, id) && SameTables(s, failed, id)
    ensures
      var won := Won(s.drafts[id], reviewer);
      AfterApprove(failed, id, reviewer, doc, texts, NoFault) ==
        AfterApprove(s, id, reviewer, doc, texts, NoFault).(
          objects := failed.objects[doc := Render(won)], chunks := failed.chunks + ChunksOf(doc, texts))
  {
    var won := Won(s.drafts[id], reviewer);
    assert Won(failed.drafts[id], reviewer) == won;
    assert failed.drafts[id := won.(publishedDoc := Some(doc))] == s.drafts[id := won.(publishedDoc := Some(doc))];
  }

  lemma FailureLeavesOwn(s: Stores, id: DraftId, reviewer: UserId, doc: DocId, texts: seq<string>, fault: Fault)
    requires Reviewable(s, id) && fault != NoFault && IsFresh(s, doc)
    ensures
      var failed := AfterApprove(s, id, reviewer, doc, texts, fault);
      failed.objects - {doc} == s.objects && WithoutDoc(failed.chunks, doc) == s.chunks
  {
    LeftChunksAreOfDoc(fault, doc, texts);
    assert s.objects - {doc} == s.objects && WithoutDoc(s.chunks, doc) == s.chunks;
    assert WithoutDoc(s.chunks + LeftChunks(fault, doc, texts), doc) == s.chunks;
  }

  /** Bytes or chunks of a document that the database does not know, and that were not that already. */
  predicate LeavesOrphans(s: Stores, s': Stores) {
    || (exists doc <- s'.objects :: doc !in s'.documents && (doc in s.objects ==> doc in s.documents))
    || (exists c <- s'.chunks :: c.doc !in s'.documents && (c in s.chunks ==> c.doc in s.documents))
  }

  /** The database fails after both stores are written, or a call of the undo raises while the bytes are stored
      and stay: the one that drops the chunks, after which the bytes are not tried, or their own. */
  predicate FailsLate(fault: Fault) {
    match fault
    case DatabaseFails(late) => late
    case PutFails(stored, undo) => stored && (undo.ChunksStay? || (undo.BytesStay? && !undo.deleted))
    case IndexFails(_, undo) => undo.ChunksStay? || (undo.BytesStay? && !undo.deleted)
    case _ => false
  }

  lemma LeftChunksMeanBytes(fault: Fault, doc: DocId, texts: seq<string>)
    requires LeftChunks(fault, doc, texts) != {} && fault != NoFault
    ensures LeavesBytes(fault)
  {
  }

  /** An approval leaves bytes or chunks without a document exactly when it fails late: in the database at the
      very end, or in an undo that has not reached the bytes or could not drop them. */
  lemma ApprovalOrphansIff(s: Stores, id: DraftId, reviewer: UserId, doc: DocId, texts: seq<string>, fault: Fault)
    requires IsFresh(s, doc)
    ensures LeavesOrphans(s, AfterApprove(s, id, reviewer, doc, texts, fault)) <==> Reviewable(s, id) && FailsLate(fault)
  {
    if Reviewable(s, id) && fault != NoFault {
      if FailsLate(fault) { LateFailureOrphans(s, id, reviewer, doc, texts, fault); }
      else { EarlyFailureLeavesNothing(s, id, reviewer, doc, texts, fault); }
    } else {
      SuccessLeavesNothing(s, id, reviewer, doc, texts);
    }
  }

  lemma LateFailureOrphans(s: Stores, id: DraftId, reviewer: UserId, doc: DocId, texts: seq<string>, fault: Fault)
    requires IsFresh(s, doc) && Reviewable(s, id) && FailsLate(fault)
    ensures LeavesOrphans(s, AfterApprove(s, id, reviewer, doc, texts, fault))
  {
    var after := AfterApprove(s, id, reviewer, doc, texts, fault);
    assert doc in after.objects && doc !in after.documents;
  }

  lemma EarlyFailureLeavesNothing(s: Stores, id: DraftId, reviewer: UserId, doc: DocId, texts: seq<string>, fault: Fault)
    requires Reviewable(s, id) && fault != NoFault && !FailsLate(fault)
    ensures
      var after := AfterApprove(s, id, reviewer, doc, texts, fault);
      after.objects == s.objects && after.chunks == s.chunks && after.documents == s.documents
  {
    if LeftChunks(fault, doc, texts) != {} { LeftChunksMeanBytes(fault, doc, texts); }
  }

  lemma SuccessLeavesNothing(s: Stores, id: DraftId, reviewer: UserId, doc: DocId, texts: seq<string>)
    requires IsFresh(s, doc)
    ensures !LeavesOrphans(s, AfterApprove(s, id, reviewer, doc, texts, NoFault))
  {
    var after := AfterApprove(s, id, reviewer, doc, texts, NoFault);
    assert forall k <- s.documents :: k in after.documents;
    assert forall c <- after.chunks :: c in s.chunks || c.doc in after.documents;
  }

  /** A delete that commits always leaves the document's bytes behind, and no chunk of it. */
  lemma DeleteLeavesBytes(s: Stores, doc: DocId)
    requires Sound(s) && doc in s.documents
    ensures
      var events := [EmptyDocument(doc, None), DeleteDocument(doc)];
      && IsRun(s, events) && LeavesOrphans(s, Final(s, events))
      && doc in Final(s, events).objects && forall c <- Final(s, events).chunks :: c.doc != doc
  {
    assert DocumentOk(s, doc);
    var emptied := Step(s, EmptyDocument(doc, None));
    var deleted := Step(emptied, DeleteDocument(doc));
    var events := [EmptyDocument(doc, None), DeleteDocument(doc)];
    assert events[1..] == [DeleteDocument(doc)] && events[1..][1..] == [];
    assert IsRun(deleted, []) && Final(deleted, []) == deleted;
    assert IsRun(emptied, events[1..]) && Final(emptied, events[1..]) == deleted;
  }
}
