/** Safety of the indexing protocol over every interleaving of any number of workers. */
module IndexSafety {
  import opened Wrappers
  import opened IndexModel

  // ---- One document and the worker that holds it ----

  /** All chunks of generation `g` are stored, with the texts that were cut for it. */
  ghost predicate Whole(doc: Doc, g: nat) {
    && g in doc.passes
    && doc.passes[g] != []
    && forall i :: 0 <= i < |doc.passes[g]| ==> Slot(g, i) in doc.chunks && doc.chunks[Slot(g, i)] == doc.passes[g][i]
  }

  /** The vector store holds at least one complete generation of the document. */
  ghost predicate HasWhole(doc: Doc) {
    exists g :: Whole(doc, g)
  }

  /** Generation `g` is stored whole and nothing else is. */
  ghost predicate Exactly(doc: Doc, g: nat) {
    Whole(doc, g) && doc.chunks.Keys == Slots(g, doc.passes[g])
  }

  predicate Cut(doc: Doc, g: nat, texts: seq<string>) {
    g in doc.passes && doc.passes[g] == texts && texts != []
  }

  /** The row is there and no delete has emptied the document since it was claimed. */
  predicate Intact(doc: Doc) {
    doc.row.Some? && !doc.dropped
  }

  /** What holds at each stage; a row that has been deleted meanwhile releases the promises, and a
      delete that has taken chunks away releases those about chunks. */
  ghost predicate StageOk(pc: Pc, doc: Doc) {
    match pc
    case Adding(_, _, g, texts) => Cut(doc, g, texts) && (doc.row.Some? ==> doc.hasBytes)
    case Sweeping(_, _, g, texts) =>
      Cut(doc, g, texts) && (doc.row.Some? ==> doc.hasBytes) && (Intact(doc) ==> Whole(doc, g))
    case Refreshing(_, _, g, texts) =>
      Cut(doc, g, texts) && (doc.row.Some? ==> doc.hasBytes) && (Intact(doc) ==> Exactly(doc, g))
    case Finalizing(_, _, count) =>
      && (doc.row.Some? ==> doc.hasBytes)
      && (count > 0 && Intact(doc) ==> exists g :: Exactly(doc, g) && |doc.passes[g]| == count)
    case DroppingChunks(_, _) => pc.job.kind == Upload
    case RefreshingAfterDrop(_, _) => pc.job.kind == Upload
    case DroppingBytes(_, _) => pc.job.kind == Upload
    case _ => true
  }

  /** While a worker holds a document nobody else writes its row, and an upload job never
      holds a document that was indexed before. */
  ghost predicate HolderOk(pc: Pc, doc: Doc)
    requires Holds(pc)
  {
    && pc.snap.status == Indexing
    && pc.snap.startedAt.Some?
    && (doc.row.Some? ==> doc.row.value == pc.snap)
    && !IsStaged(doc)
    && (pc.job.kind == Upload ==> pc.snap.indexedAt.None?)
    && StageOk(pc, doc)
  }

  /** An indexed document is active or being indexed and still has its source bytes; a
      published one has a complete generation stored. */
  ghost predicate DocOk(doc: Doc) {
    if doc.row.None? then IsStaged(doc) ==> !doc.published else
      && (doc.row.value.indexedAt.Some? ==>
            (doc.row.value.status == Active || doc.row.value.status == Indexing) && doc.hasBytes)
      && (doc.published ==> doc.row.value.indexedAt.Some? && HasWhole(doc) && !doc.dropped)
  }

  /** The steps that write the vector store or read it. */
  predicate OnChunks(l: WorkerLabel) {
    l.Load? || l.Add? || l.AddFails? || l.Sweep? || l.SweepFails? || l.Refresh?
  }

  lemma ChunkWorkKeepsDoc(pc: Pc, doc: Doc, now: nat, l: WorkerLabel)
    requires Holds(pc) && HolderOk(pc, doc) && DocOk(doc) && CanStep(pc, doc, l) && OnChunks(l)
    ensures
      var doc' := NextDoc(pc, doc, now, l);
      DocOk(doc') && (Holds(NextPc(pc, l)) ==> HolderOk(NextPc(pc, l), doc'))
  {
    var doc' := NextDoc(pc, doc, now, l);
    match l {
      case Load(g, texts) =>
        if texts != [] { OtherGenerationsStay(doc, doc', g); }
      case Add =>
        AddMakesWhole(doc, pc.generation, pc.texts, Slots(pc.generation, pc.texts));
      case AddFails(landed) =>
        AddMakesWhole(doc, pc.generation, pc.texts, landed);
      case Sweep => SweepKeepsDoc(doc, doc', pc.generation, pc.texts);
      case SweepFails(removed) => PartialSweepKeepsDoc(doc, doc', pc.generation, removed);
      case Refresh(_) =>
        if Intact(doc) && pc.Refreshing? { assert Exactly(doc', pc.generation); }
    }
  }

  lemma RowWorkKeepsDoc(pc: Pc, doc: Doc, now: nat, l: WorkerLabel)
    requires Holds(pc) && HolderOk(pc, doc) && DocOk(doc) && CanStep(pc, doc, l) && !OnChunks(l)
    ensures
      var doc' := NextDoc(pc, doc, now, l);
      DocOk(doc') && (Holds(NextPc(pc, l)) ==> HolderOk(NextPc(pc, l), doc'))
  {
    var doc' := NextDoc(pc, doc, now, l);
    match l {
      case Finalize =>
        if pc.count > 0 && Intact(doc) {
          var g :| Exactly(doc, g);
          assert Whole(doc', g);
        } else if doc.row.Some? && doc.published {
          var g :| Whole(doc, g);
          assert Whole(doc', g);
        }
      case Retry => SameChunks(doc, doc');
      case MarkTerminal => SameChunks(doc, doc');
      case _ =>
    }
  }

  /** Whatever a holding worker does, failing or not, keeps the promises about its document. */
  lemma WorkKeepsDoc(pc: Pc, doc: Doc, now: nat, l: WorkerLabel)
    requires Holds(pc) && HolderOk(pc, doc) && DocOk(doc) && CanStep(pc, doc, l)
    ensures
      var doc' := NextDoc(pc, doc, now, l);
      DocOk(doc') && (Holds(NextPc(pc, l)) ==> HolderOk(NextPc(pc, l), doc'))
  {
    if OnChunks(l) { ChunkWorkKeepsDoc(pc, doc, now, l); } else { RowWorkKeepsDoc(pc, doc, now, l); }
  }

  lemma SweepKeepsDoc(doc: Doc, doc': Doc, g: nat, texts: seq<string>)
    requires Cut(doc, g, texts) && (Intact(doc) ==> Whole(doc, g))
    requires doc' == doc.(chunks := Swept(doc.chunks, g, texts))
    ensures Intact(doc) ==> Exactly(doc', g)
  {
  }

  lemma PartialSweepKeepsDoc(doc: Doc, doc': Doc, g: nat, removed: set<Slot>)
    requires g in doc.passes && removed <= doc.chunks.Keys - Slots(g, doc.passes[g]) && (Intact(doc) ==> Whole(doc, g))
    requires doc' == doc.(chunks := Without(doc.chunks, removed))
    ensures Intact(doc) ==> Whole(doc', g)
  {
  }

  lemma SameChunks(doc: Doc, doc': Doc)
    requires doc.chunks == doc'.chunks && doc.passes == doc'.passes
    ensures HasWhole(doc) ==> HasWhole(doc')
  {
    if HasWhole(doc) {
      var g :| Whole(doc, g);
      assert Whole(doc', g);
    }
  }

  lemma OtherGenerationsStay(doc: Doc, doc': Doc, g: nat)
    requires FreshGeneration(doc, g) && doc'.chunks == doc.chunks
    requires forall k <- doc.passes :: k in doc'.passes && doc'.passes[k] == doc.passes[k]
    ensures HasWhole(doc) ==> HasWhole(doc')
  {
    if HasWhole(doc) {
      var k :| Whole(doc, k);
      assert Whole(doc', k);
    }
  }

  /** Adding, even in part, never breaks a complete generation; adding in full completes the new one. */
  lemma AddMakesWhole(doc: Doc, g: nat, texts: seq<string>, landed: set<Slot>)
    requires Cut(doc, g, texts)
    ensures
      var doc' := doc.(chunks := WithChunks(doc.chunks, g, texts, landed));
      && (HasWhole(doc) ==> HasWhole(doc'))
      && (landed == Slots(g, texts) ==> Whole(doc', g))
  {
    var doc' := doc.(chunks := WithChunks(doc.chunks, g, texts, landed));
    if HasWhole(doc) {
      var k :| Whole(doc, k);
      assert Whole(doc', k);
    }
  }

  // ---- The whole system ----

  predicate ValidJob(j: Job) {
    INITIAL_INDEX_ATTEMPT <= j.attempt <= MAX_INDEX_ATTEMPTS
  }

  ghost predicate JobsOk(s: State) {
    && (forall j <- s.queue :: ValidJob(j))
    && (forall p <- s.outbox :: ValidJob(p.job))
    && (forall pc <- s.workers :: !pc.Idle? ==> ValidJob(pc.job))
  }

  ghost predicate HoldsDoc(s: State, w: nat, d: DocId) {
    w < |s.workers| && Holds(s.workers[w]) && s.workers[w].job.doc == d
  }

  /** At most one worker is between claim and finalize for each document. */
  ghost predicate Exclusive(s: State) {
    forall v: nat, w: nat, d: DocId :: HoldsDoc(s, v, d) && HoldsDoc(s, w, d) ==> v == w
  }

  ghost predicate Held(s: State, d: DocId) {
    exists w: nat :: HoldsDoc(s, w, d)
  }

  /** The worker that holds a document, if any, has its promises. */
  ghost predicate HoldersOk(s: State, d: DocId) {
    forall w: nat :: HoldsDoc(s, w, d) ==> d in s.docs && HolderOk(s.workers[w], s.docs[d])
  }

  /** What restarts have selected was up for requeueing, and what is being deleted is still there, though
      emptied before its delete can commit. */
  predicate BooksOk(s: State) {
    && (forall o <- s.selected :: RequeueCandidate(o.row, s.now))
    && (forall d <- s.deletes :: HasRow(s, d) && (s.deletes[d] in {Emptied, Reported} ==> s.docs[d].dropped))
  }

  ghost predicate Inv(s: State) {
    && |s.workers| == |s.bm25|
    && JobsOk(s)
    && Exclusive(s)
    && (forall d <- s.docs :: DocOk(s.docs[d]))
    && (forall d: DocId :: HoldersOk(s, d))
    && BooksOk(s)
  }

  /** A step that writes no document and makes no worker a holder. */
  lemma UntouchedDocsKeepInv(s: State, s': State)
    requires Inv(s) && s'.docs == s.docs && |s'.workers| == |s'.bm25| == |s.workers|
    requires forall v: nat | v < |s.workers| :: s'.workers[v] == s.workers[v] || !Holds(s'.workers[v])
    requires JobsOk(s') && BooksOk(s')
    ensures Inv(s')
  {
    assert forall v: nat, e: DocId :: HoldsDoc(s', v, e) ==> HoldsDoc(s, v, e) && s'.workers[v] == s.workers[v];
    forall d: DocId ensures HoldersOk(s', d) {
      assert HoldersOk(s, d);
    }
  }

  /** A step that writes one document; its holders are accounted for, all other workers are as before. */
  lemma OneDocKeepsInv(s: State, s': State, d: DocId)
    requires Inv(s) && |s'.workers| == |s'.bm25| == |s.workers|
    requires d in s'.docs && s'.docs == s.docs[d := s'.docs[d]] && DocOk(s'.docs[d])
    requires forall v: nat, e: DocId :: HoldsDoc(s', v, e) && e != d ==> HoldsDoc(s, v, e) && s'.workers[v] == s.workers[v]
    requires forall u: nat, v: nat :: HoldsDoc(s', u, d) && HoldsDoc(s', v, d) ==> u == v
    requires HoldersOk(s', d) && JobsOk(s') && BooksOk(s')
    ensures Inv(s')
  {
    forall e: DocId ensures HoldersOk(s', e) {
      if e != d { assert HoldersOk(s, e); }
    }
  }

  /** The restart that selected `o` writes a row. */
  predicate WritesOver(s: State, o: Selection) {
    o.row.status == Indexing && HasRow(s, o.doc)
  }

  /** When a restart writes, no worker holds the document, and a row that it puts back to pending has
      not been indexed since it was selected. */
  ghost predicate SafeReset(s: State, l: Label) {
    l.ResetOrphan? && WritesOver(s, l.o) ==>
      !Held(s, l.o.doc) && (IsReindex(l.o.row) || s.docs[l.o.doc].row.value.indexedAt.None?)
  }

  ghost predicate IsSafeRun(s: State, ls: seq<Label>)
    decreases |ls|
  {
    ls == [] || (Enabled(s, ls[0]) && SafeReset(s, ls[0]) && IsSafeRun(Apply(s, ls[0]), ls[1..]))
  }

  lemma InitialInv(workers: nat)
    ensures Inv(Initial(workers))
  {
  }

  lemma WorkKeepsJob(pc: Pc, doc: Doc, l: WorkerLabel)
    requires Holds(pc) && ValidJob(pc.job) && CanStep(pc, doc, l)
    ensures Holds(NextPc(pc, l)) ==> NextPc(pc, l).job.doc == pc.job.doc
    ensures !NextPc(pc, l).Idle? ==> ValidJob(NextPc(pc, l).job)
  {
  }

  lemma WorkKeepsJobs(s: State, w: nat, l: WorkerLabel)
    requires Inv(s) && Enabled(s, Work(w, l))
    ensures JobsOk(ApplyWork(s, w, l))
  {
    WorkKeepsJob(s.workers[w], s.docs[s.workers[w].job.doc], l);
  }

  lemma WorkKeepsBooks(s: State, w: nat, l: WorkerLabel)
    requires BooksOk(s) && Enabled(s, Work(w, l))
    ensures BooksOk(ApplyWork(s, w, l))
  {
  }

  lemma WorkKeepsHolders(s: State, w: nat, l: WorkerLabel)
    requires Inv(s) && Enabled(s, Work(w, l))
    ensures forall v: nat, e: DocId :: HoldsDoc(ApplyWork(s, w, l), v, e) ==> HoldsDoc(s, v, e)
    ensures forall v: nat, e: DocId :: HoldsDoc(ApplyWork(s, w, l), v, e) && e != s.workers[w].job.doc ==>
      ApplyWork(s, w, l).workers[v] == s.workers[v]
  {
    WorkKeepsJob(s.workers[w], s.docs[s.workers[w].job.doc], l);
  }

  lemma WorkKeepsInv(s: State, w: nat, l: WorkerLabel)
    requires Inv(s) && Enabled(s, Work(w, l))
    ensures Inv(ApplyWork(s, w, l))
  {
    var s' := ApplyWork(s, w, l);
    var pc := s.workers[w];
    var d := pc.job.doc;
    assert HoldsDoc(s, w, d) && HoldersOk(s, d);
    WorkKeepsDoc(pc, s.docs[d], s.now, l);
    WorkKeepsJobs(s, w, l);
    WorkKeepsBooks(s, w, l);
    WorkKeepsHolders(s, w, l);
    OneDocKeepsInv(s, s', d);
  }

  lemma HeldRowIsIndexing(s: State, d: DocId)
    requires Inv(s)
    ensures Held(s, d) && HasRow(s, d) ==> s.docs[d].row.value.status == Indexing
  {
    assert HoldersOk(s, d);
  }

  lemma ClaimKeepsInv(s: State, w: nat)
    requires Inv(s) && Enabled(s, Claim(w))
    ensures Inv(Apply(s, Claim(w)))
  {
    var s' := Apply(s, Claim(w));
    var d := s.workers[w].job.doc;
    if s'.workers[w].Claimed? {
      HeldRowIsIndexing(s, d);
      SameChunks(s.docs[d], s'.docs[d]);
      assert forall v: nat, e: DocId :: v != w && HoldsDoc(s', v, e) ==> HoldsDoc(s, v, e);
      assert HolderOk(s'.workers[w], s'.docs[d]);
      OneDocKeepsInv(s, s', d);
    } else {
      UntouchedDocsKeepInv(s, s');
    }
  }

  predicate OnQueue(l: Label) {
    l.Pop? || l.PushRetry? || l.Abandon? || l.Push? || l.Tick? || l.ReindexDocument?
  }

  lemma QueueStepKeepsJobs(s: State, l: Label)
    requires Inv(s) && Enabled(s, l) && OnQueue(l)
    ensures JobsOk(Apply(s, l))
  {
    if l.Push? || l.Tick? || l.ReindexDocument? { ProducerStepKeepsJobs(s, l); } else { MoveKeepsJobs(s, l); }
  }

  lemma ProducerStepKeepsJobs(s: State, l: Label)
    requires JobsOk(s) && Enabled(s, l) && (l.Push? || l.Tick? || l.ReindexDocument?)
    ensures JobsOk(Apply(s, l))
  {
  }

  lemma MoveKeepsJobs(s: State, l: Label)
    requires JobsOk(s) && Enabled(s, l) && (l.Pop? || l.PushRetry? || l.Abandon?)
    ensures JobsOk(Apply(s, l))
  {
  }

  lemma QueueStepKeepsBooks(s: State, l: Label)
    requires BooksOk(s) && Enabled(s, l) && OnQueue(l)
    ensures BooksOk(Apply(s, l))
  {
  }

  lemma QueueStepKeepsInv(s: State, l: Label)
    requires Inv(s) && Enabled(s, l) && OnQueue(l)
    ensures Inv(Apply(s, l))
  {
    QueueStepKeepsJobs(s, l);
    QueueStepKeepsBooks(s, l);
    UntouchedDocsKeepInv(s, Apply(s, l));
  }

  lemma UploadKeepsInv(s: State, d: DocId)
    requires Inv(s) && Enabled(s, UploadDocument(d))
    ensures Inv(Apply(s, UploadDocument(d)))
  {
    var s' := Apply(s, UploadDocument(d));
    assert HoldersOk(s, d);
    assert forall v: nat, e: DocId :: HoldsDoc(s', v, e) ==> HoldsDoc(s, v, e);
    OneDocKeepsInv(s, s', d);
  }

  lemma PushFailsKeepsInv(s: State, p: Producer)
    requires Inv(s) && Enabled(s, PushFails(p))
    ensures Inv(Apply(s, PushFails(p)))
  {
    var s' := Apply(s, PushFails(p));
    var d := p.job.doc;
    assert forall v: nat, e: DocId :: HoldsDoc(s', v, e) ==> HoldsDoc(s, v, e);
    if p.upload && d in s.docs {
      assert HoldersOk(s, d);
      OneDocKeepsInv(s, s', d);
    } else {
      UntouchedDocsKeepInv(s, s');
    }
  }

  predicate OfDelete(l: Label) {
    l.BeginDelete? || l.EmptyForDelete? || l.EmptyForDeleteFails? || l.RefreshForDelete? || l.CommitDelete? || l.RollbackDelete?
  }

  predicate OfPublication(l: Label) {
    l.StageDocument? || l.CommitStaged? || l.UndoStaged? || l.RebuildIndex?
  }

  /** A starting process: what its documents need, and its index, saved or loaded. */
  predicate OfRestart(l: Label) {
    l.SelectOrphan? || l.ForgetOrphan? || l.ResetOrphan? || l.SaveIndex? || l.LoadIndex?
  }

  lemma DeleteKeepsInv(s: State, l: Label)
    requires Inv(s) && Enabled(s, l) && (l.BeginDelete? || l.RefreshForDelete? || l.RollbackDelete?)
    ensures Inv(Apply(s, l))
  {
    UntouchedDocsKeepInv(s, Apply(s, l));
  }

  lemma CommitDeleteKeepsInv(s: State, d: DocId)
    requires Inv(s) && Enabled(s, CommitDelete(d))
    ensures Inv(Apply(s, CommitDelete(d)))
  {
    var s' := Apply(s, CommitDelete(d));
    assert HoldersOk(s, d);
    assert forall v: nat, e: DocId :: HoldsDoc(s', v, e) ==> HoldsDoc(s, v, e);
    OneDocKeepsInv(s, s', d);
  }

  lemma EmptyingKeepsInv(s: State, l: Label)
    requires Inv(s) && Enabled(s, l) && (l.EmptyForDelete? || l.EmptyForDeleteFails?)
    ensures Inv(Apply(s, l))
  {
    var s' := Apply(s, l);
    assert HoldersOk(s, l.d);
    assert forall v: nat, e: DocId :: HoldsDoc(s', v, e) ==> HoldsDoc(s, v, e);
    OneDocKeepsInv(s, s', l.d);
  }

  lemma ResetKeepsInv(s: State, o: Selection)
    requires Inv(s) && Enabled(s, ResetOrphan(o)) && SafeReset(s, ResetOrphan(o))
    ensures Inv(ApplyReset(s, o))
  {
    var s' := ApplyReset(s, o);
    ResetKeepsBooks(s, o);
    ResetKeepsJobs(s, o);
    if WritesOver(s, o) {
      ResetKeepsDoc(s.docs[o.doc], o.row);
      assert forall v: nat, e: DocId :: HoldsDoc(s', v, e) ==> HoldsDoc(s, v, e);
      OneDocKeepsInv(s, s', o.doc);
    } else {
      UntouchedDocsKeepInv(s, s');
    }
  }

  lemma ResetKeepsDoc(doc: Doc, read: Row)
    requires DocOk(doc) && doc.row.Some? && (IsReindex(read) || doc.row.value.indexedAt.None?)
    ensures DocOk(doc.(row := Some(ResetRow(read, doc.row.value))))
  {
    SameChunks(doc, doc.(row := Some(ResetRow(read, doc.row.value))));
  }

  lemma ResetKeepsBooks(s: State, o: Selection)
    requires BooksOk(s) && o in s.selected
    ensures BooksOk(ApplyReset(s, o))
  {
  }

  lemma ResetKeepsJobs(s: State, o: Selection)
    requires JobsOk(s) && o in s.selected
    ensures JobsOk(ApplyReset(s, o))
  {
    var s' := ApplyReset(s, o);
    forall p | p in s'.outbox ensures ValidJob(p.job) {
      if p !in s.outbox { assert p.job == Job(o.doc, RequeueKind(o.row), INITIAL_INDEX_ATTEMPT); }
    }
  }

  lemma StageKeepsInv(s: State, l: Label)
    requires Inv(s) && Enabled(s, l) && l.StageDocument?
    ensures Inv(Apply(s, l))
  {
    var s' := Apply(s, l);
    assert HoldersOk(s, l.d);
    assert forall v: nat, e: DocId :: HoldsDoc(s', v, e) ==> HoldsDoc(s, v, e);
    OneDocKeepsInv(s, s', l.d);
  }

  lemma LandedIsWhole(doc: Doc, g: nat, now: nat)
    requires AllLanded(doc, g) && doc.passes[g] != []
    ensures HasWhole(PublishedDoc(doc, |doc.passes[g]|, now))
  {
    assert Whole(PublishedDoc(doc, |doc.passes[g]|, now), g);
  }

  lemma CommitStagedKeepsInv(s: State, d: DocId, g: nat)
    requires Inv(s) && Enabled(s, CommitStaged(d, g))
    ensures Inv(Apply(s, CommitStaged(d, g)))
  {
    var s' := Apply(s, CommitStaged(d, g));
    if s.docs[d].passes[g] != [] { LandedIsWhole(s.docs[d], g, s.now); }
    assert HoldersOk(s, d);
    assert forall v: nat, e: DocId :: HoldsDoc(s', v, e) ==> HoldsDoc(s, v, e);
    OneDocKeepsInv(s, s', d);
  }

  lemma UndoStagedKeepsInv(s: State, l: Label)
    requires Inv(s) && Enabled(s, l) && l.UndoStaged?
    ensures Inv(Apply(s, l))
  {
    var s' := Apply(s, l);
    assert HoldersOk(s, l.d);
    assert forall v: nat, e: DocId :: HoldsDoc(s', v, e) ==> HoldsDoc(s, v, e);
    OneDocKeepsInv(s, s', l.d);
  }

  lemma RebuildKeepsInv(s: State, w: nat, reachable: bool)
    requires Inv(s) && w < |s.bm25|
    ensures Inv(RefreshIndex(s, w, reachable))
  {
    UntouchedDocsKeepInv(s, RefreshIndex(s, w, reachable));
  }

  lemma SelectKeepsInv(s: State, l: Label)
    requires Inv(s) && Enabled(s, l) && (l.SelectOrphan? || l.ForgetOrphan?)
    ensures Inv(Apply(s, l))
  {
    UntouchedDocsKeepInv(s, Apply(s, l));
  }

  lemma SaveKeepsInv(s: State, w: nat)
    requires Inv(s) && Enabled(s, SaveIndex(w))
    ensures Inv(Apply(s, SaveIndex(w)))
  {
    UntouchedDocsKeepInv(s, Apply(s, SaveIndex(w)));
  }

  lemma LoadKeepsInv(s: State, w: nat, readable: bool, reachable: bool)
    requires Inv(s) && w < |s.bm25|
    ensures Inv(ApplyLoad(s, w, readable, reachable))
  {
    UntouchedDocsKeepInv(s, ApplyLoad(s, w, readable, reachable));
  }

  lemma WorkerStepKeepsInv(s: State, l: Label)
    requires Inv(s) && Enabled(s, l) && (l.Work? || l.Claim?)
    ensures Inv(Apply(s, l))
  {
    if l.Work? { WorkKeepsInv(s, l.w, l.l); } else { ClaimKeepsInv(s, l.w); }
  }

  lemma DeleteStepKeepsInv(s: State, l: Label)
    requires Inv(s) && Enabled(s, l) && OfDelete(l)
    ensures Inv(Apply(s, l))
  {
    if l.CommitDelete? { CommitDeleteKeepsInv(s, l.d); }
    else if l.EmptyForDelete? || l.EmptyForDeleteFails? { EmptyingKeepsInv(s, l); }
    else { DeleteKeepsInv(s, l); }
  }

  lemma PublicationKeepsInv(s: State, l: Label)
    requires Inv(s) && Enabled(s, l) && OfPublication(l)
    ensures Inv(Apply(s, l))
  {
    if l.StageDocument? { StageKeepsInv(s, l); }
    else if l.CommitStaged? { CommitStagedKeepsInv(s, l.d, l.g); }
    else if l.UndoStaged? { UndoStagedKeepsInv(s, l); }
    else { RebuildKeepsInv(s, l.w, l.reachable); }
  }

  lemma RestartKeepsInv(s: State, l: Label)
    requires Inv(s) && Enabled(s, l) && SafeReset(s, l) && OfRestart(l)
    ensures Inv(Apply(s, l))
  {
    if l.ResetOrphan? { ResetKeepsInv(s, l.o); }
    else if l.SaveIndex? { SaveKeepsInv(s, l.w); }
    else if l.LoadIndex? { LoadKeepsInv(s, l.w, l.readable, l.reachable); }
    else { SelectKeepsInv(s, l); }
  }

  lemma ProducerKeepsInv(s: State, l: Label)
    requires Inv(s) && Enabled(s, l) && (l.UploadDocument? || l.PushFails?)
    ensures Inv(Apply(s, l))
  {
    if l.UploadDocument? { UploadKeepsInv(s, l.d); } else { PushFailsKeepsInv(s, l.p); }
  }

  /** Every step of the protocol keeps the invariant, as long as the writes of restarts are safe. */
  lemma StepKeepsInv(s: State, l: Label)
    requires Inv(s) && Enabled(s, l) && SafeReset(s, l)
    ensures Inv(Apply(s, l))
  {
    if l.Work? || l.Claim? { WorkerStepKeepsInv(s, l); }
    else if OnQueue(l) { QueueStepKeepsInv(s, l); }
    else if OfDelete(l) { DeleteStepKeepsInv(s, l); }
    else if OfPublication(l) { PublicationKeepsInv(s, l); }
    else if OfRestart(l) { RestartKeepsInv(s, l); }
    else { ProducerKeepsInv(s, l); }
  }

  // ---- Whole runs ----

  lemma {:induction false} SafeRunKeepsInv(s: State, ls: seq<Label>)
    requires Inv(s) && IsSafeRun(s, ls)
    ensures IsRun(s, ls) && Inv(Final(s, ls))
    decreases |ls|
  {
    if ls != [] {
      StepKeepsInv(s, ls[0]);
      SafeRunKeepsInv(Apply(s, ls[0]), ls[1..]);
    }
  }

  /** Some run of some number of workers leads to `s`. */
  ghost predicate Reachable(s: State) {
    exists workers, ls :: IsSafeRunTo(workers, ls, s)
  }

  ghost predicate IsSafeRunTo(workers: nat, ls: seq<Label>, s: State) {
    IsSafeRun(Initial(workers), ls) && IsRun(Initial(workers), ls) && Final(Initial(workers), ls) == s
  }

  lemma ReachableInv(s: State)
    requires Reachable(s)
    ensures Inv(s)
  {
    var workers, ls :| IsSafeRunTo(workers, ls, s);
    InitialInv(workers);
    SafeRunKeepsInv(Initial(workers), ls);
  }

  /** At every moment of every run, at most one worker is between claim and finalize for a document. */
  lemma AtMostOneWorkerPerDocument(s: State, v: nat, w: nat, d: DocId)
    requires Reachable(s) && HoldsDoc(s, v, d) && HoldsDoc(s, w, d)
    ensures v == w
  {
    ReachableInv(s);
  }

  /** The step takes chunks of the document out of the store, for a delete or to undo its publication. */
  predicate Empties(l: Label, d: DocId) {
    (l.EmptyForDelete? || l.EmptyForDeleteFails? || l.UndoStaged?) && l.d == d
  }

  lemma WorkKeepsPublished(pc: Pc, doc: Doc, now: nat, l: WorkerLabel)
    requires doc.published
    ensures NextDoc(pc, doc, now, l).published
  {
  }

  /** The steps that write a document. */
  predicate WritesDocs(l: Label) {
    l.UploadDocument? || l.PushFails? || l.EmptyForDelete? || l.EmptyForDeleteFails? || l.CommitDelete?
    || l.ResetOrphan? || l.Claim? || l.Work? || l.StageDocument? || l.CommitStaged? || l.UndoStaged?
  }

  lemma DocsStay(s: State, l: Label)
    requires Enabled(s, l) && !WritesDocs(l)
    ensures Apply(s, l).docs == s.docs
  {
    if OnQueue(l) { QueueStepKeepsDocs(s, l); }
    else if OfRestart(l) { RestartKeepsDocs(s, l); }
    else { TransactionKeepsDocs(s, l); }
  }

  lemma QueueStepKeepsDocs(s: State, l: Label)
    requires Enabled(s, l) && OnQueue(l)
    ensures Apply(s, l).docs == s.docs
  {
  }

  lemma LoadKeepsDocs(s: State, w: nat, readable: bool, reachable: bool)
    requires w < |s.bm25|
    ensures ApplyLoad(s, w, readable, reachable).docs == s.docs
  {
  }

  lemma RestartKeepsDocs(s: State, l: Label)
    requires Enabled(s, l) && OfRestart(l) && !l.ResetOrphan?
    ensures Apply(s, l).docs == s.docs
  {
    if l.LoadIndex? { LoadKeepsDocs(s, l.w, l.readable, l.reachable); }
  }

  lemma TransactionKeepsDocs(s: State, l: Label)
    requires Enabled(s, l) && !WritesDocs(l) && (OfDelete(l) || OfPublication(l))
    ensures Apply(s, l).docs == s.docs
  {
  }

  /** The stored chunks of the document do not change, and it stays published. */
  predicate KeepsContents(s: State, s': State, d: DocId) {
    d in s.docs ==>
      d in s'.docs && s'.docs[d].chunks == s.docs[d].chunks && (s.docs[d].published ==> s'.docs[d].published)
  }

  lemma ClaimKeepsContents(s: State, w: nat, job: Job, d: DocId)
    requires w < |s.workers|
    ensures KeepsContents(s, ApplyClaim(s, w, job), d)
  {
  }

  lemma RowWriteKeepsContents(s: State, l: Label, d: DocId)
    requires Enabled(s, l) && (l.UploadDocument? || l.PushFails? || l.CommitDelete?)
    ensures KeepsContents(s, Apply(s, l), d)
  {
  }

  lemma OtherEmptyingKeepsContents(s: State, l: Label, d: DocId)
    requires Enabled(s, l) && (l.EmptyForDelete? || l.EmptyForDeleteFails? || l.UndoStaged?) && l.d != d
    ensures KeepsContents(s, Apply(s, l), d)
  {
  }

  lemma PublishingKeepsContents(s: State, l: Label, d: DocId)
    requires Enabled(s, l) && (l.StageDocument? || l.CommitStaged?)
    ensures KeepsContents(s, Apply(s, l), d)
  {
  }

  /** Only workers, deletes and undone publications touch the chunks that are stored. */
  lemma StepKeepsContents(s: State, l: Label, d: DocId)
    requires Enabled(s, l) && !l.Work? && !Empties(l, d)
    ensures KeepsContents(s, Apply(s, l), d)
  {
    if !WritesDocs(l) { DocsStay(s, l); }
    else if l.Claim? { ClaimKeepsContents(s, l.w, s.workers[l.w].job, d); }
    else if l.ResetOrphan? { assert KeepsContents(s, ApplyReset(s, l.o), d); }
    else if l.EmptyForDelete? || l.EmptyForDeleteFails? || l.UndoStaged? { OtherEmptyingKeepsContents(s, l, d); }
    else if l.StageDocument? || l.CommitStaged? { PublishingKeepsContents(s, l, d); }
    else { RowWriteKeepsContents(s, l, d); }
  }

  lemma StepKeepsPublished(s: State, l: Label, d: DocId)
    requires Enabled(s, l) && d in s.docs && s.docs[d].published && !Empties(l, d)
    ensures d in Apply(s, l).docs && Apply(s, l).docs[d].published
  {
    if l.Work? {
      var e := s.workers[l.w].job.doc;
      if e == d { WorkKeepsPublished(s.workers[l.w], s.docs[e], s.now, l.l); }
    } else {
      StepKeepsContents(s, l, d);
    }
  }

  lemma {:induction false} PublishedStays(s: State, ls: seq<Label>, d: DocId)
    requires IsRun(s, ls) && d in s.docs && s.docs[d].published
    requires forall l <- ls :: !Empties(l, d)
    ensures d in Final(s, ls).docs && Final(s, ls).docs[d].published
    decreases |ls|
  {
    if ls != [] {
      StepKeepsPublished(s, ls[0], d);
      PublishedStays(Apply(s, ls[0]), ls[1..], d);
    }
  }

  /** A document once finalized with at least one chunk has one complete generation in the
      vector store at every later moment, between an add and its sweep included, whatever other
      workers, failures, crashes, retries and restarts do meanwhile, as long as no delete of the
      document begins to empty it. */
  lemma OnceFinalizedAlwaysWhole(s: State, w: nat, later: seq<Label>)
    requires Reachable(s) && Enabled(s, Work(w, Finalize)) && s.workers[w].count > 0
    requires HasRow(s, s.workers[w].job.doc) && !s.docs[s.workers[w].job.doc].dropped
    requires IsSafeRun(Apply(s, Work(w, Finalize)), later)
    requires forall l <- later :: !Empties(l, s.workers[w].job.doc)
    ensures
      var d := s.workers[w].job.doc;
      IsRun(Apply(s, Work(w, Finalize)), later)
      && var s' := Final(Apply(s, Work(w, Finalize)), later);
      HasRow(s', d) ==> HasWhole(s'.docs[d])
  {
    var s1 := Apply(s, Work(w, Finalize));
    ReachableInv(s);
    StepKeepsInv(s, Work(w, Finalize));
    SafeRunKeepsInv(s1, later);
    PublishedStays(s1, later, s.workers[w].job.doc);
  }

  /** The same holds from its commit on of a document that was published with at least one chunk. */
  lemma OncePublishedAlwaysWhole(s: State, d: DocId, g: nat, later: seq<Label>)
    requires Reachable(s) && Enabled(s, CommitStaged(d, g)) && s.docs[d].passes[g] != []
    requires IsSafeRun(Apply(s, CommitStaged(d, g)), later) && forall l <- later :: !Empties(l, d)
    ensures
      IsRun(Apply(s, CommitStaged(d, g)), later)
      && var s' := Final(Apply(s, CommitStaged(d, g)), later);
      HasRow(s', d) ==> HasWhole(s'.docs[d])
  {
    var s1 := Apply(s, CommitStaged(d, g));
    ReachableInv(s);
    StepKeepsInv(s, CommitStaged(d, g));
    SafeRunKeepsInv(s1, later);
    PublishedStays(s1, later, d);
  }

  /** Some complete generation loses no chunk. */
  ghost predicate SparesGeneration(doc: Doc, gone: set<Slot>) {
    exists g :: Whole(doc, g) && gone !! Slots(g, doc.passes[g])
  }

  lemma EmptyingKeepsWholeIff(doc: Doc, gone: set<Slot>)
    ensures HasWhole(EmptiedDoc(doc, gone)) <==> SparesGeneration(doc, gone)
  {
    var doc' := EmptiedDoc(doc, gone);
    forall g ensures Whole(doc', g) <==> Whole(doc, g) && gone !! Slots(g, doc.passes[g]) {
      if g in doc.passes {
        forall i | 0 <= i < |doc.passes[g]|
          ensures Slot(g, i) in doc'.chunks <==> Slot(g, i) in doc.chunks && Slot(g, i) !in gone
        {
        }
        if gone !! Slots(g, doc.passes[g]) {
          assert forall i | 0 <= i < |doc.passes[g]| :: Slot(g, i) in Slots(g, doc.passes[g]);
        }
      }
    }
  }

  /** What a single step does to a published document that keeps its row: it stays whole exactly unless
      a delete empties it, in full or so far that no complete generation is spared. */
  lemma StepKeepsWholeIff(s: State, l: Label, d: DocId)
    requires Inv(s) && Enabled(s, l) && SafeReset(s, l)
    requires HasRow(s, d) && s.docs[d].published && HasRow(Apply(s, l), d)
    ensures HasWhole(Apply(s, l).docs[d]) <==>
      !(Empties(l, d) && (l.EmptyForDelete? || !SparesGeneration(s.docs[d], l.gone)))
  {
    StepKeepsInv(s, l);
    if Empties(l, d) {
      EmptyingKeepsWholeIff(s.docs[d], if l.EmptyForDelete? then s.docs[d].chunks.Keys else l.gone);
      if l.EmptyForDelete? { NothingSpared(s.docs[d]); }
    } else {
      StepKeepsPublished(s, l, d);
      assert DocOk(Apply(s, l).docs[d]);
    }
  }

  lemma NothingSpared(doc: Doc)
    ensures !SparesGeneration(doc, doc.chunks.Keys)
  {
    forall g | Whole(doc, g) ensures !(doc.chunks.Keys !! Slots(g, doc.passes[g])) {
      assert Slot(g, 0) in doc.chunks && Slot(g, 0) in Slots(g, doc.passes[g]);
    }
  }

  // ---- Indexed documents ----

  /** A document with `indexedAt` set is active or indexing, and an upload job leaves it alone. */
  lemma UploadJobSkipsIndexed(s: State, w: nat)
    requires Reachable(s) && Enabled(s, Claim(w)) && HasRow(s, s.workers[w].job.doc)
    requires s.docs[s.workers[w].job.doc].row.value.indexedAt.Some?
    ensures s.docs[s.workers[w].job.doc].row.value.status in {Active, Indexing}
    ensures s.workers[w].job.kind == Upload ==> Apply(s, Claim(w)) == s.(workers := s.workers[w := Idle])
  {
    ReachableInv(s);
    assert DocOk(s.docs[s.workers[w].job.doc]);
  }

  /** The cleanup after a last failed upload never touches the chunks or bytes of a document
      that was indexed or published before. */
  lemma CleanupSparesIndexed(s: State, w: nat, l: WorkerLabel)
    requires Reachable(s) && Enabled(s, Work(w, l))
    requires l.DropChunks? || l.DropChunksFails? || l.DropBytes?
    ensures
      var doc := s.docs[s.workers[w].job.doc];
      doc.row.Some? ==> doc.row.value.indexedAt.None? && !doc.published
  {
    ReachableInv(s);
    assert HoldsDoc(s, w, s.workers[w].job.doc) && HoldersOk(s, s.workers[w].job.doc);
    assert DocOk(s.docs[s.workers[w].job.doc]);
  }

  lemma SlotsSize(g: nat, texts: seq<string>)
    ensures |Slots(g, texts)| == |texts|
  {
    if texts == [] {
      assert Slots(g, texts) == {};
    } else {
      var front := texts[..|texts| - 1];
      SlotsSize(g, front);
      assert Slots(g, texts) == Slots(g, front) + {Slot(g, |texts| - 1)};
    }
  }

  /** `chunkCount` equals the number of stored chunks after a finalize, except when a text without any
      chunk was indexed over a document that had some, or a delete emptied the document during the pass. */
  lemma FinalizeCountsChunks(s: State, w: nat)
    requires Inv(s) && Enabled(s, Work(w, Finalize)) && HasRow(s, s.workers[w].job.doc)
    ensures
      var doc := Apply(s, Work(w, Finalize)).docs[s.workers[w].job.doc];
      && doc.row.Some?
      && (!doc.dropped ==> (doc.row.value.chunkCount == |doc.chunks| <==> s.workers[w].count > 0 || doc.chunks == map[]))
  {
    var pc := s.workers[w];
    var doc := s.docs[pc.job.doc];
    assert HoldsDoc(s, w, pc.job.doc) && HoldersOk(s, pc.job.doc);
    if pc.count > 0 && !doc.dropped {
      var g :| Exactly(doc, g) && |doc.passes[g]| == pc.count;
      SlotsSize(g, doc.passes[g]);
      assert |doc.chunks| == |doc.chunks.Keys|;
    }
  }

  // ---- What a row says of its document ----

  /** The two index columns of a row, as the last successful pass or publication wrote them. */
  datatype Written = Written(count: nat, at: Option<nat>)

  /** The rows' columns are what was written; a document that is yet to come has had nothing written. */
  predicate SaysWritten(s: State, d: DocId, was: Written) {
    && (HasRow(s, d) ==> s.docs[d].row.value.chunkCount == was.count && s.docs[d].row.value.indexedAt == was.at)
    && (d !in s.docs ==> was == Written(0, None))
  }

  /** Only a finalize or the commit of a publication writes them. */
  function NextWritten(s: State, l: Label, d: DocId, was: Written): Written
    requires Enabled(s, l)
  {
    match l
    case Work(w, Finalize) => if s.workers[w].job.doc == d then Written(s.workers[w].count, Some(s.now)) else was
    case CommitStaged(e, g) => if e == d then Written(|s.docs[d].passes[g]|, Some(s.now)) else was
    case _ => was
  }

  function LastWritten(s: State, ls: seq<Label>, d: DocId, was: Written): Written
    requires IsRun(s, ls)
    decreases |ls|
  {
    if ls == [] then was else LastWritten(Apply(s, ls[0]), ls[1..], d, NextWritten(s, ls[0], d, was))
  }

  /** What a worker's step makes of its document's row: a failed pass leaves the two columns as they were
      and gives the row back for another attempt or for good. */
  lemma WorkRow(pc: Pc, doc: Doc, now: nat, l: WorkerLabel)
    requires Holds(pc) && HolderOk(pc, doc) && CanStep(pc, doc, l)
    ensures doc.row.Some? <==> NextDoc(pc, doc, now, l).row.Some?
    ensures doc.row.Some? ==>
      var was, row := doc.row.value, NextDoc(pc, doc, now, l).row.value;
      && row.hasKey == was.hasKey
      && (l.Finalize? ==> row.chunkCount == pc.count && row.indexedAt == Some(now) && row.status == Active && row.startedAt == None)
      && (!l.Finalize? ==> row.chunkCount == was.chunkCount && row.indexedAt == was.indexedAt)
      && (l.Retry? ==> row.startedAt == None && row.status == if pc.job.kind == Reindex then Active else Pending)
      && (l.MarkTerminal? ==> row.startedAt == None && row.status == if pc.job.kind == Reindex then Active else Failed)
      && (!WritesRow(l) ==> row == was)
  {
  }

  lemma WorkSaysWritten(s: State, w: nat, l: WorkerLabel, d: DocId, was: Written)
    requires Inv(s) && Enabled(s, Work(w, l)) && SaysWritten(s, d, was)
    ensures SaysWritten(ApplyWork(s, w, l), d, NextWritten(s, Work(w, l), d, was))
  {
    var e := s.workers[w].job.doc;
    assert HoldsDoc(s, w, e) && HoldersOk(s, e);
    WorkRow(s.workers[w], s.docs[e], s.now, l);
  }

  lemma ClaimSaysWritten(s: State, w: nat, job: Job, d: DocId, was: Written)
    requires w < |s.workers| && SaysWritten(s, d, was)
    ensures SaysWritten(ApplyClaim(s, w, job), d, was)
  {
  }

  lemma ResetSaysWritten(s: State, o: Selection, d: DocId, was: Written)
    requires SaysWritten(s, d, was)
    ensures SaysWritten(ApplyReset(s, o), d, was)
  {
  }

  lemma DocWriteSaysWritten(s: State, l: Label, d: DocId, was: Written)
    requires Enabled(s, l) && SaysWritten(s, d, was)
    requires l.UploadDocument? || l.PushFails? || l.EmptyForDelete? || l.EmptyForDeleteFails? || l.CommitDelete?
             || l.StageDocument? || l.CommitStaged? || l.UndoStaged?
    ensures SaysWritten(Apply(s, l), d, NextWritten(s, l, d, was))
  {
  }

  lemma StepSaysWritten(s: State, l: Label, d: DocId, was: Written)
    requires Inv(s) && Enabled(s, l) && SaysWritten(s, d, was)
    ensures SaysWritten(Apply(s, l), d, NextWritten(s, l, d, was))
  {
    if l.Work? { WorkSaysWritten(s, l.w, l.l, d, was); }
    else if l.Claim? { ClaimSaysWritten(s, l.w, s.workers[l.w].job, d, was); }
    else if l.ResetOrphan? { ResetSaysWritten(s, l.o, d, was); }
    else if WritesDocs(l) { DocWriteSaysWritten(s, l, d, was); }
    else { DocsStay(s, l); }
  }

  lemma {:induction false} RunSaysWritten(s: State, ls: seq<Label>, d: DocId, was: Written)
    requires Inv(s) && IsSafeRun(s, ls) && IsRun(s, ls) && SaysWritten(s, d, was)
    ensures SaysWritten(Final(s, ls), d, LastWritten(s, ls, d, was))
    decreases |ls|
  {
    if ls != [] {
      StepKeepsInv(s, ls[0]);
      StepSaysWritten(s, ls[0], d, was);
      RunSaysWritten(Apply(s, ls[0]), ls[1..], d, NextWritten(s, ls[0], d, was));
    }
  }

  /** In every reachable state a row's chunk count and index time are what the last finalize or publication of
      its document wrote, or those of a new row, whatever has failed, been retried or been restored since. */
  lemma RowSaysWhatWasWritten(workers: nat, ls: seq<Label>, d: DocId)
    requires IsSafeRun(Initial(workers), ls) && IsRun(Initial(workers), ls) && HasRow(Final(Initial(workers), ls), d)
    ensures
      var row := Final(Initial(workers), ls).docs[d].row.value;
      Written(row.chunkCount, row.indexedAt) == LastWritten(Initial(workers), ls, d, Written(0, None))
  {
    InitialInv(workers);
    RunSaysWritten(Initial(workers), ls, d, Written(0, None));
  }

  // ---- Restarts and reindexing ----

  /** The job can claim the row: it is pending or failed, or active and the job reindexes. */
  predicate CanClaim(job: Job, row: Row) {
    row.status == Pending || row.status == Failed || (row.status == Active && job.kind == Reindex)
  }

  /** A claim is won exactly when the row is there and the job can claim it; the winner's row is indexing from now
      on and otherwise as it was, and a loser changes nothing. */
  lemma ClaimWinsIff(s: State, w: nat)
    requires Enabled(s, Claim(w))
    ensures
      var job, s' := s.workers[w].job, Apply(s, Claim(w));
      if HasRow(s, job.doc) && CanClaim(job, s.docs[job.doc].row.value) then
        && HoldsDoc(s', w, job.doc) && HasRow(s', job.doc)
        && s'.docs[job.doc].row.value == s.docs[job.doc].row.value.(status := Indexing, startedAt := Some(s.now))
        && s'.workers[w].snap == s'.docs[job.doc].row.value
      else s' == s.(workers := s.workers[w := Idle])
  {
  }

  /** The document has been deleted: it has no row and nothing is under way to give it one. */
  predicate IsGone(s: State, d: DocId) {
    d in s.docs && s.docs[d].row.None? && s.docs[d].dropped
  }

  lemma WorkKeepsGone(s: State, w: nat, l: WorkerLabel, d: DocId)
    requires Enabled(s, Work(w, l)) && IsGone(s, d)
    ensures IsGone(ApplyWork(s, w, l), d)
  {
  }

  lemma ClaimKeepsGone(s: State, w: nat, job: Job, d: DocId)
    requires w < |s.workers| && IsGone(s, d)
    ensures IsGone(ApplyClaim(s, w, job), d)
  {
  }

  lemma ResetKeepsGone(s: State, o: Selection, d: DocId)
    requires IsGone(s, d)
    ensures IsGone(ApplyReset(s, o), d)
  {
  }

  lemma DocWriteKeepsGone(s: State, l: Label, d: DocId)
    requires Enabled(s, l) && IsGone(s, d) && WritesDocs(l) && !l.Work? && !l.Claim? && !l.ResetOrphan?
    ensures IsGone(Apply(s, l), d)
  {
  }

  lemma StepKeepsGone(s: State, l: Label, d: DocId)
    requires Enabled(s, l) && IsGone(s, d)
    ensures IsGone(Apply(s, l), d)
  {
    if l.Work? { WorkKeepsGone(s, l.w, l.l, d); }
    else if l.Claim? { ClaimKeepsGone(s, l.w, s.workers[l.w].job, d); }
    else if l.ResetOrphan? { ResetKeepsGone(s, l.o, d); }
    else if WritesDocs(l) { DocWriteKeepsGone(s, l, d); }
    else { DocsStay(s, l); }
  }

  lemma {:induction false} GoneStaysGone(s: State, ls: seq<Label>, d: DocId)
    requires IsRun(s, ls) && IsGone(s, d)
    ensures IsGone(Final(s, ls), d)
    decreases |ls|
  {
    if ls != [] {
      StepKeepsGone(s, ls[0], d);
      GoneStaysGone(Apply(s, ls[0]), ls[1..], d);
    }
  }

  /** Once its delete has committed a document never has a row again, whatever workers, jobs, restarts and
      reindexings of it are still under way. */
  lemma DeletedStaysDeleted(s: State, d: DocId, later: seq<Label>)
    requires Reachable(s) && Enabled(s, CommitDelete(d)) && IsRun(Apply(s, CommitDelete(d)), later)
    ensures !HasRow(Final(Apply(s, CommitDelete(d)), later), d)
  {
    ReachableInv(s);
    GoneStaysGone(Apply(s, CommitDelete(d)), later, d);
  }

  /** The producer's job is announced for the first time and can claim its document's row. */
  predicate Announced(s: State, p: Producer, d: DocId) {
    p in s.outbox && p.job.doc == d && p.job.attempt == 1 && HasRow(s, d) && CanClaim(p.job, s.docs[d].row.value)
  }

  /** A restart selects exactly the pending rows and the rows indexing for more than thirty minutes, and unless a
      delete holds the row, writing one leaves a first attempt announced that can claim it, the columns untouched. */
  lemma RestartServes(s: State, d: DocId)
    requires HasRow(s, d)
    ensures
      var row := s.docs[d].row.value;
      && (Enabled(s, SelectOrphan(d)) <==>
            row.status == Pending || (row.status == Indexing && row.startedAt.Some? && row.startedAt.value + 30 < s.now))
      && (Enabled(s, SelectOrphan(d)) && !Locked(s, d) ==>
            var s1, o := Apply(s, SelectOrphan(d)), Selection(d, row);
            && Enabled(s1, ResetOrphan(o))
            && var s2 := Apply(s1, ResetOrphan(o));
            && (exists p :: Announced(s2, p, d))
            && s2.docs[d].row.value.chunkCount == row.chunkCount && s2.docs[d].row.value.indexedAt == row.indexedAt)
  {
    var row := s.docs[d].row.value;
    if Enabled(s, SelectOrphan(d)) && !Locked(s, d) {
      var s1, o := Apply(s, SelectOrphan(d)), Selection(d, row);
      var s2 := Apply(s1, ResetOrphan(o));
      var kind := if row.indexedAt.Some? || row.chunkCount > 0 then Reindex else Upload;
      assert Announced(s2, Producer(Job(d, kind, 1), false), d);
    }
  }

  /** Reindexing announces a first attempt that reindexes, except of a failed document that was never indexed: that
      one is uploaded anew, and should its attempts all fail it ends failed again rather than active. */
  lemma ReindexAnnounces(s: State, d: DocId)
    requires Enabled(s, ReindexDocument(d))
    ensures
      var row := s.docs[d].row.value;
      Apply(s, ReindexDocument(d)) == s.(outbox := s.outbox + multiset{
        Producer(Job(d, if row.status == Failed && row.indexedAt == None then Upload else Reindex, 1), false)})
  {
  }

  /** The last write of a pass that has failed for good. */
  lemma FailedForGood(s: State, w: nat)
    requires Inv(s) && Enabled(s, Work(w, MarkTerminal)) && HasRow(s, s.workers[w].job.doc)
    ensures
      var d := s.workers[w].job.doc;
      var row := Apply(s, Work(w, MarkTerminal)).docs[d].row;
      row.Some? && row.value.startedAt == None
      && row.value.status == (if s.workers[w].job.kind == Reindex then Active else Failed)
      && row.value.chunkCount == s.docs[d].row.value.chunkCount && row.value.indexedAt == s.docs[d].row.value.indexedAt
  {
    var d := s.workers[w].job.doc;
    assert HoldsDoc(s, w, d) && HoldersOk(s, d);
    WorkRow(s.workers[w], s.docs[d], s.now, MarkTerminal);
  }

  // ---- What the exclusion rests on ----

  /** No worker has held a document, whose row still exists, beyond the staleness limit. */
  ghost predicate NoOverrun(s: State) {
    forall w: nat, d: DocId :: HoldsDoc(s, w, d) && HasRow(s, d) ==>
      s.workers[w].snap.startedAt.Some?
      && s.now <= s.workers[w].snap.startedAt.value + STALE_INDEXING_REQUEUE_MINUTES
  }

  /** The late write of a restart keeps the invariant exactly when no worker holds the document and the
      row has not been indexed since it was selected for a first index. */
  lemma ResetKeepsInvIff(s: State, o: Selection)
    requires Inv(s) && Enabled(s, ResetOrphan(o))
    ensures Inv(Apply(s, ResetOrphan(o))) <==> SafeReset(s, ResetOrphan(o))
  {
    var s' := Apply(s, ResetOrphan(o));
    if SafeReset(s, ResetOrphan(o)) {
      StepKeepsInv(s, ResetOrphan(o));
    } else if Held(s, o.doc) {
      var w: nat :| HoldsDoc(s, w, o.doc);
      assert HoldsDoc(s', w, o.doc) && HoldersOk(s, o.doc) && !HolderOk(s'.workers[w], s'.docs[o.doc]);
      assert !HoldersOk(s', o.doc);
    } else {
      assert !DocOk(s'.docs[o.doc]);
    }
  }

  /** The row is still the one that was selected. */
  predicate RowUnchanged(s: State, o: Selection) {
    HasRow(s, o.doc) && s.docs[o.doc].row.value == o.row
  }

  /** A restart that wrote only rows that are still as it selected them would be safe for every row it
      could select exactly when no live worker has overrun the limit. */
  lemma CheckedRequeueIsSafeIff(s: State)
    requires Inv(s)
    ensures (forall o: Selection :: RequeueCandidate(o.row, s.now) && RowUnchanged(s, o) ==> SafeReset(s, ResetOrphan(o))) <==> NoOverrun(s)
  {
    if NoOverrun(s) {
      forall o: Selection | RequeueCandidate(o.row, s.now) && RowUnchanged(s, o) ensures SafeReset(s, ResetOrphan(o)) {
        UnchangedRowIsNotHeld(s, o);
      }
    } else {
      var w: nat, d: DocId :| HoldsDoc(s, w, d) && HasRow(s, d)
        && !(s.workers[w].snap.startedAt.Some?
             && s.now <= s.workers[w].snap.startedAt.value + STALE_INDEXING_REQUEUE_MINUTES);
      assert HoldersOk(s, d) && HolderOk(s.workers[w], s.docs[d]);
      var o := Selection(d, s.docs[d].row.value);
      assert RequeueCandidate(o.row, s.now) && RowUnchanged(s, o);
      assert Held(s, d) && !SafeReset(s, ResetOrphan(o));
    }
  }

  lemma HoldersAreRecent(s: State, d: DocId)
    requires Inv(s) && NoOverrun(s) && HasRow(s, d)
    ensures forall w: nat :: HoldsDoc(s, w, d) ==> !RequeueCandidate(s.docs[d].row.value, s.now)
  {
    assert HoldersOk(s, d);
  }

  lemma UnchangedRowIsNotHeld(s: State, o: Selection)
    requires Inv(s) && NoOverrun(s) && RequeueCandidate(o.row, s.now) && RowUnchanged(s, o)
    ensures o.row.status == Indexing ==> !Held(s, o.doc)
  {
    HoldersAreRecent(s, o.doc);
  }

  /** So, without an overrun, an unsafe write means that the row has changed since it was selected. */
  lemma UnsafeResetMeansStaleRow(s: State, o: Selection)
    requires Inv(s) && NoOverrun(s) && o in s.selected && !SafeReset(s, ResetOrphan(o))
    ensures HasRow(s, o.doc) && !RowUnchanged(s, o)
  {
    CheckedRequeueIsSafeIff(s);
    if RowUnchanged(s, o) { UnchangedRowIsNotHeld(s, o); }
  }
}
