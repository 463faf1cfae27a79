/** The asynchronous document indexing protocol as a labelled step system.

    One step is one thing that other tasks can observe: a committed transaction, one
    call to the vector store, one push or pop on the queue. Any number of workers take
    their steps in any order. A store call may fail, and a failing call may still have
    done part of its work. */
module IndexModel {
  import opened Wrappers

  const MAX_INDEX_ATTEMPTS := 3
  const INITIAL_INDEX_ATTEMPT := 1
  const STALE_INDEXING_REQUEUE_MINUTES := 30

  type DocId = nat

  datatype Status = Pending | Indexing | Active | Failed

  datatype Kind = Upload | Reindex

  datatype Job = Job(doc: DocId, kind: Kind, attempt: nat)

  /** A row of the documents table; `hasKey` says that its tags hold a storage key. */
  datatype Row = Row(status: Status, chunkCount: nat, indexedAt: Option<nat>, startedAt: Option<nat>, hasKey: bool)

  // ---- Row transitions ----

  predicate Claimable(row: Row, allowActive: bool) {
    row.status == Pending || row.status == Failed || (allowActive && row.status == Active)
  }

  function ClaimedRow(row: Row, now: nat): Row {
    row.(status := Indexing, startedAt := Some(now))
  }

  function WithStatus(row: Row, status: Status, chunkCount: Option<nat>, now: nat): Row {
    row.(status := status,
         chunkCount := if chunkCount.Some? then chunkCount.value else row.chunkCount,
         indexedAt := if status == Active then Some(now) else row.indexedAt,
         startedAt := if status != Indexing then None else row.startedAt)
  }

  function RestoredRow(row: Row, chunkCount: nat): Row {
    row.(status := Active, chunkCount := chunkCount, startedAt := None)
  }

  predicate IsReindex(row: Row) {
    row.indexedAt.Some? || row.chunkCount > 0
  }

  function ReindexKind(row: Row): Kind {
    if row.status == Failed && row.indexedAt.None? then Upload else Reindex
  }

  predicate RequeueCandidate(row: Row, now: nat) {
    || row.status == Pending
    || (row.status == Indexing && row.startedAt.Some? && row.startedAt.value + STALE_INDEXING_REQUEUE_MINUTES < now)
  }

  /** What a restart writes over `row` after having read `read`: only the columns that it changes
      in what it has read, whatever the row holds by now. */
  function ResetRow(read: Row, row: Row): Row {
    row.(status := if IsReindex(read) then Active else Pending, startedAt := None)
  }

  function RequeueKind(row: Row): Kind {
    if IsReindex(row) then Reindex else Upload
  }

  // ---- Documents ----

  /** The place of a chunk within its document; its id is the printed document id followed by these two. */
  datatype Slot = Slot(generation: nat, index: nat)

  type Chunks = map<Slot, string>

  /** Everything the three stores hold about one document: its row (`None` once deleted), its
      chunks in the vector store, and whether its source bytes are in the object store.
      `passes` records the texts cut for each generation; `published` says that a pass or a publication finished it
      with at least one chunk and no delete has emptied it since, `dropped` that a delete has emptied
      it since its last claim. Chunk ids of different documents never collide (module ChunkIds), so
      the vector store splits by document. */
  datatype Doc = Doc(
    row: Option<Row>, chunks: Chunks, hasBytes: bool, passes: map<nat, seq<string>>, published: bool, dropped: bool)

  function Slots(g: nat, texts: seq<string>): set<Slot> {
    set i | 0 <= i < |texts| :: Slot(g, i)
  }

  function Without(chunks: Chunks, gone: set<Slot>): Chunks {
    map c | c in chunks && c !in gone :: chunks[c]
  }

  /** The chunks after adding those of one generation that landed. */
  function WithChunks(chunks: Chunks, g: nat, texts: seq<string>, landed: set<Slot>): Chunks {
    chunks + map c: Slot | c in Slots(g, texts) && c in landed :: texts[c.index]
  }

  function Swept(chunks: Chunks, g: nat, texts: seq<string>): Chunks {
    Without(chunks, chunks.Keys - Slots(g, texts))
  }

  /** The document once a worker has claimed it. */
  function ClaimedDoc(doc: Doc, row: Row): Doc {
    doc.(row := Some(row), dropped := false)
  }

  /** The document once a delete has taken chunks out of the vector store. */
  function EmptiedDoc(doc: Doc, gone: set<Slot>): Doc {
    doc.(chunks := Without(doc.chunks, gone), published := false, dropped := true)
  }

  /** The stores already have the document, while the transaction that makes its row is still open. */
  predicate IsStaged(doc: Doc) {
    doc.row.None? && doc.hasBytes && !doc.dropped
  }

  /** A document that is published at once: bytes and chunks first, some of which may not have landed. */
  function StagedDoc(g: nat, texts: seq<string>, landed: set<Slot>): Doc {
    Doc(None, WithChunks(map[], g, texts, landed), true, map[g := texts], false, false)
  }

  /** The whole of generation `g` and nothing else has landed. */
  predicate AllLanded(doc: Doc, g: nat) {
    g in doc.passes && doc.chunks == WithChunks(map[], g, doc.passes[g], Slots(g, doc.passes[g]))
  }

  function PublishedDoc(doc: Doc, count: nat, now: nat): Doc {
    doc.(row := Some(Row(Active, count, Some(now), None, true)), published := doc.published || count > 0)
  }

  // ---- Workers ----

  /** What a worker is about to do. From `Claimed` to `Terminal` it holds the document;
      `snap` is the row it read right after its claim. */
  datatype Pc =
    | Idle
    | Popped(job: Job)
    | Claimed(job: Job, snap: Row)
    | Ready(job: Job, snap: Row)
    | Adding(job: Job, snap: Row, generation: nat, texts: seq<string>)
    | Sweeping(job: Job, snap: Row, generation: nat, texts: seq<string>)
    | Refreshing(job: Job, snap: Row, generation: nat, texts: seq<string>)
    | Finalizing(job: Job, snap: Row, count: nat)
    | Failing(job: Job, snap: Row, hasService: bool)
    | DroppingChunks(job: Job, snap: Row)
    | RefreshingAfterDrop(job: Job, snap: Row)
    | DroppingBytes(job: Job, snap: Row)
    | Terminal(job: Job, snap: Row)
    | Requeueing(job: Job)

  predicate Holds(pc: Pc) {
    !pc.Idle? && !pc.Popped? && !pc.Requeueing?
  }

  datatype WorkerLabel =
    | Build
    | Load(generation: nat, texts: seq<string>)
    | Add
    | AddFails(landed: set<Slot>)
    | Sweep
    | SweepFails(removed: set<Slot>)
    | Refresh(reachable: bool)
    | Finalize
    | Raise
    | Retry
    | GiveUp
    | DropChunks
    | DropChunksFails(gone: set<Slot>)
    | DropBytes(deleted: bool)
    | MarkTerminal

  /** A generation is a millisecond timestamp. Clocks may step back; all that is asked of one is that no earlier
      pass over the document has had it. */
  predicate FreshGeneration(doc: Doc, g: nat) {
    g !in doc.passes
  }

  /** When a worker that holds a document may take a step. */
  predicate CanStep(pc: Pc, doc: Doc, l: WorkerLabel) {
    match l
    case Build => pc.Claimed? && pc.snap.hasKey
    case Load(g, texts) => pc.Ready? && doc.hasBytes && FreshGeneration(doc, g)
    case Add => pc.Adding?
    case AddFails(landed) => pc.Adding? && landed <= Slots(pc.generation, pc.texts)
    case Sweep => pc.Sweeping?
    case SweepFails(removed) => pc.Sweeping? && removed <= doc.chunks.Keys - Slots(pc.generation, pc.texts)
    case Refresh(_) => pc.Refreshing? || pc.RefreshingAfterDrop?
    case Finalize => pc.Finalizing?
    case Raise => pc.Claimed? || pc.Ready? || pc.Refreshing? || pc.Finalizing? || pc.RefreshingAfterDrop?
    case Retry => pc.Failing? && pc.job.attempt < MAX_INDEX_ATTEMPTS
    case GiveUp => pc.Failing? && pc.job.attempt >= MAX_INDEX_ATTEMPTS
    case DropChunks => pc.DroppingChunks?
    case DropChunksFails(gone) => pc.DroppingChunks? && gone <= doc.chunks.Keys
    case DropBytes(_) => pc.DroppingBytes?
    case MarkTerminal => pc.Terminal?
  }

  function AfterDrop(job: Job, snap: Row): Pc {
    if snap.hasKey then DroppingBytes(job, snap) else Terminal(job, snap)
  }

  /** Once the attempts are used up, a first upload is cleaned up and a reindex goes straight to its last write. */
  function AfterGiveUp(job: Job, snap: Row, hasService: bool): Pc {
    if job.kind == Reindex then Terminal(job, snap)
    else if hasService then DroppingChunks(job, snap)
    else AfterDrop(job, snap)
  }

  function RetryRow(job: Job, snap: Row, row: Row, now: nat): Row {
    if job.kind == Upload then WithStatus(row, Pending, Some(snap.chunkCount), now)
    else RestoredRow(row, snap.chunkCount)
  }

  function TerminalRow(job: Job, snap: Row, row: Row, now: nat): Row {
    if job.kind == Upload then WithStatus(row, Failed, None, now)
    else RestoredRow(row, snap.chunkCount)
  }

  /** Where the worker goes next. A raised exception leads to the failure handler, except
      inside the cleanup, which logs it and goes on. */
  function NextPc(pc: Pc, l: WorkerLabel): Pc {
    match (pc, l)
    case (Claimed(job, snap), Build) => Ready(job, snap)
    case (Claimed(job, snap), Raise) => Failing(job, snap, false)
    case (Ready(job, snap), Load(g, texts)) =>
      if texts == [] then Finalizing(job, snap, 0) else Adding(job, snap, g, texts)
    case (Ready(job, snap), Raise) => Failing(job, snap, true)
    case (Adding(job, snap, g, texts), Add) => Sweeping(job, snap, g, texts)
    case (Adding(job, snap, g, texts), AddFails(_)) => Failing(job, snap, true)
    case (Sweeping(job, snap, g, texts), Sweep) => Refreshing(job, snap, g, texts)
    case (Sweeping(job, snap, g, texts), SweepFails(_)) => Failing(job, snap, true)
    case (Refreshing(job, snap, g, texts), Refresh(_)) => Finalizing(job, snap, |texts|)
    case (Refreshing(job, snap, g, texts), Raise) => Failing(job, snap, true)
    case (Finalizing(job, snap, count), Finalize) => Idle
    case (Finalizing(job, snap, count), Raise) => Failing(job, snap, true)
    case (Failing(job, snap, hasService), Retry) => Requeueing(job.(attempt := job.attempt + 1))
    case (Failing(job, snap, hasService), GiveUp) => AfterGiveUp(job, snap, hasService)
    case (DroppingChunks(job, snap), DropChunks) => RefreshingAfterDrop(job, snap)
    case (DroppingChunks(job, snap), DropChunksFails(_)) => AfterDrop(job, snap)
    case (RefreshingAfterDrop(job, snap), Refresh(_)) => AfterDrop(job, snap)
    case (RefreshingAfterDrop(job, snap), Raise) => AfterDrop(job, snap)
    case (DroppingBytes(job, snap), DropBytes(_)) => Terminal(job, snap)
    case (Terminal(job, snap), MarkTerminal) => Idle
    case _ => pc
  }

  /** What the step does to the worker's own document. A write to a row by id does nothing
      when the row is gone. */
  function NextDoc(pc: Pc, doc: Doc, now: nat, l: WorkerLabel): Doc {
    match (pc, l)
    case (Ready(_, _), Load(g, texts)) => if texts == [] then doc else doc.(passes := doc.passes[g := texts])
    case (Adding(_, _, g, texts), Add) => doc.(chunks := WithChunks(doc.chunks, g, texts, Slots(g, texts)))
    case (Adding(_, _, g, texts), AddFails(landed)) => doc.(chunks := WithChunks(doc.chunks, g, texts, landed))
    case (Sweeping(_, _, g, texts), Sweep) => doc.(chunks := Swept(doc.chunks, g, texts))
    case (Sweeping(_, _, g, texts), SweepFails(removed)) => doc.(chunks := Without(doc.chunks, removed))
    case (Finalizing(_, _, count), Finalize) =>
      if doc.row.None? then doc
      else doc.(row := Some(WithStatus(doc.row.value, Active, Some(count), now)),
                published := doc.published || (count > 0 && !doc.dropped))
    case (Failing(job, snap, _), Retry) =>
      if doc.row.None? then doc else doc.(row := Some(RetryRow(job, snap, doc.row.value, now)))
    case (DroppingChunks(_, _), DropChunks) => doc.(chunks := map[])
    case (DroppingChunks(_, _), DropChunksFails(gone)) => doc.(chunks := Without(doc.chunks, gone))
    case (DroppingBytes(_, _), DropBytes(deleted)) => doc.(hasBytes := doc.hasBytes && !deleted)
    case (Terminal(job, snap), MarkTerminal) =>
      if doc.row.None? then doc else doc.(row := Some(TerminalRow(job, snap, doc.row.value, now)))
    case _ => doc
  }

  /** The steps that write the document's row. */
  predicate WritesRow(l: WorkerLabel) {
    l.Finalize? || l.Retry? || l.MarkTerminal?
  }

  // ---- One worker on its own document ----

  /** The steps of one worker that holds a document, as long as nobody else touches it. */
  predicate IsLocalRun(pc: Pc, doc: Doc, now: nat, ls: seq<WorkerLabel>)
    decreases |ls|
  {
    ls == [] ||
    (Holds(pc) && CanStep(pc, doc, ls[0]) && IsLocalRun(NextPc(pc, ls[0]), NextDoc(pc, doc, now, ls[0]), now, ls[1..]))
  }

  function LocalEnd(pc: Pc, doc: Doc, now: nat, ls: seq<WorkerLabel>): (Pc, Doc)
    decreases |ls|
  {
    if ls == [] then (pc, doc) else LocalEnd(NextPc(pc, ls[0]), NextDoc(pc, doc, now, ls[0]), now, ls[1..])
  }

  lemma {:induction false} LocalRunExtends(pc: Pc, doc: Doc, now: nat, ls: seq<WorkerLabel>, l: WorkerLabel)
    requires IsLocalRun(pc, doc, now, ls)
    requires var (pc1, doc1) := LocalEnd(pc, doc, now, ls); Holds(pc1) && CanStep(pc1, doc1, l)
    ensures IsLocalRun(pc, doc, now, ls + [l])
    ensures
      var (pc1, doc1) := LocalEnd(pc, doc, now, ls);
      LocalEnd(pc, doc, now, ls + [l]) == (NextPc(pc1, l), NextDoc(pc1, doc1, now, l))
    decreases |ls|
  {
    if ls == [] {
      assert [l][1..] == [];
    } else {
      LocalRunExtends(NextPc(pc, ls[0]), NextDoc(pc, doc, now, ls[0]), now, ls[1..], l);
      assert (ls + [l])[1..] == ls[1..] + [l];
    }
  }

  // ---- The whole system ----

  /** A producer that has committed its row and is about to push its job. */
  datatype Producer = Producer(job: Job, upload: bool)

  /** A row that a restarting process has selected for requeueing and not yet written. */
  datatype Selection = Selection(doc: DocId, row: Row)

  /** How far the deletion of a document has come. From the beginning its transaction holds the row;
      a call that raises leaves only the rollback. */
  datatype DeletePc = Flushed | Emptied | Reported | Broken

  /** `docs` keeps an entry for every document id ever given out; `file` is the saved BM25 index. */
  datatype State = State(
    now: nat,
    docs: map<DocId, Doc>,
    queue: seq<Job>,
    outbox: multiset<Producer>,
    selected: multiset<Selection>,
    deletes: map<DocId, DeletePc>,
    workers: seq<Pc>,
    bm25: seq<Option<map<DocId, Chunks>>>,
    file: Option<map<DocId, Chunks>>)

  datatype Label =
    | UploadDocument(d: DocId)
    | ReindexDocument(d: DocId)
    | Push(p: Producer)
    | PushFails(p: Producer)
    | BeginDelete(d: DocId)
    | EmptyForDelete(d: DocId)
    | EmptyForDeleteFails(d: DocId, gone: set<Slot>)
    | RefreshForDelete(d: DocId, w: nat, reachable: bool)
    | CommitDelete(d: DocId)
    | RollbackDelete(d: DocId)
    | StageDocument(d: DocId, g: nat, texts: seq<string>, landed: set<Slot>)
    | CommitStaged(d: DocId, g: nat)
    | UndoStaged(d: DocId, gone: set<Slot>, deleted: bool)
    | RebuildIndex(w: nat, reachable: bool)
    | SelectOrphan(d: DocId)
    | ResetOrphan(o: Selection)
    | ForgetOrphan(o: Selection)
    | SaveIndex(w: nat)
    | LoadIndex(w: nat, readable: bool, reachable: bool)
    | Tick(minutes: nat)
    | Pop(w: nat)
    | Claim(w: nat)
    | Work(w: nat, l: WorkerLabel)
    | PushRetry(w: nat)
    | Abandon(w: nat)

  predicate HasRow(s: State, d: DocId) {
    d in s.docs && s.docs[d].row.Some?
  }

  predicate IsWorker(s: State, w: nat) {
    w < |s.workers| == |s.bm25|
  }

  /** A delete in progress keeps everybody else from writing the row. */
  predicate Locked(s: State, d: DocId) {
    d in s.deletes
  }

  predicate DeleteAt(s: State, d: DocId, pc: DeletePc) {
    d in s.docs && d in s.deletes && s.deletes[d] == pc
  }

  predicate Enabled(s: State, l: Label) {
    match l
    case UploadDocument(d) => d !in s.docs
    case ReindexDocument(d) => HasRow(s, d) && s.docs[d].row.value.hasKey
    case Push(p) => p in s.outbox
    case PushFails(p) => p in s.outbox && (p.upload ==> !Locked(s, p.job.doc))
    case BeginDelete(d) => HasRow(s, d) && !Locked(s, d)
    case EmptyForDelete(d) => DeleteAt(s, d, Flushed)
    case EmptyForDeleteFails(d, gone) => DeleteAt(s, d, Flushed) && gone <= s.docs[d].chunks.Keys
    case RefreshForDelete(d, w, _) => DeleteAt(s, d, Emptied) && IsWorker(s, w)
    case CommitDelete(d) => DeleteAt(s, d, Reported)
    case RollbackDelete(d) => Locked(s, d)
    case StageDocument(d, g, texts, landed) => d !in s.docs && landed <= Slots(g, texts)
    case CommitStaged(d, g) => d in s.docs && IsStaged(s.docs[d]) && AllLanded(s.docs[d], g)
    case UndoStaged(d, gone, _) => d in s.docs && IsStaged(s.docs[d]) && gone <= s.docs[d].chunks.Keys
    case RebuildIndex(w, _) => IsWorker(s, w)
    case SelectOrphan(d) => HasRow(s, d) && RequeueCandidate(s.docs[d].row.value, s.now)
    case ResetOrphan(o) => o in s.selected && !Locked(s, o.doc)
    case ForgetOrphan(o) => o in s.selected
    case SaveIndex(w) => IsWorker(s, w) && s.bm25[w].Some?
    case LoadIndex(w, _, _) => IsWorker(s, w)
    case Tick(_) => true
    case Pop(w) => IsWorker(s, w) && s.workers[w].Idle? && s.queue != []
    case Claim(w) => IsWorker(s, w) && s.workers[w].Popped? && !Locked(s, s.workers[w].job.doc)
    case Work(w, wl) =>
      && IsWorker(s, w)
      && Holds(s.workers[w])
      && s.workers[w].job.doc in s.docs
      && CanStep(s.workers[w], s.docs[s.workers[w].job.doc], wl)
      && (WritesRow(wl) ==> !Locked(s, s.workers[w].job.doc))
    case PushRetry(w) => IsWorker(s, w) && s.workers[w].Requeueing?
    case Abandon(w) => IsWorker(s, w) && !s.workers[w].Idle?
  }

  /** What a full read of the vector store returns. */
  function Contents(s: State): map<DocId, Chunks> {
    map d | d in s.docs && s.docs[d].chunks != map[] :: s.docs[d].chunks
  }

  /** The BM25 index of process `w` is rebuilt from a full read, or left alone when the store cannot be read. */
  function RefreshIndex(s: State, w: nat, reachable: bool): State
    requires w < |s.bm25|
  {
    if reachable then s.(bm25 := s.bm25[w := Some(Contents(s))]) else s
  }

  function ApplyClaim(s: State, w: nat, job: Job): State
    requires w < |s.workers|
  {
    if HasRow(s, job.doc) && Claimable(s.docs[job.doc].row.value, job.kind == Reindex) then
      var row := ClaimedRow(s.docs[job.doc].row.value, s.now);
      s.(workers := s.workers[w := Claimed(job, row)],
         docs := s.docs[job.doc := ClaimedDoc(s.docs[job.doc], row)])
    else
      s.(workers := s.workers[w := Idle])
  }

  function ApplyWork(s: State, w: nat, l: WorkerLabel): State
    requires Enabled(s, Work(w, l))
  {
    var pc := s.workers[w];
    var d := pc.job.doc;
    var s1 := s.(workers := s.workers[w := NextPc(pc, l)],
                 docs := s.docs[d := NextDoc(pc, s.docs[d], s.now, l)]);
    RefreshIndex(s1, w, l.Refresh? && l.reachable)
  }

  const NEW_DOC := Doc(Some(Row(Pending, 0, None, None, true)), map[], true, map[], false, false)

  function Announce(s: State, d: DocId, kind: Kind, upload: bool): multiset<Producer> {
    s.outbox + multiset{Producer(Job(d, kind, INITIAL_INDEX_ATTEMPT), upload)}
  }

  /** The restart's write rests on the row it has read. A pending row is only announced; without
      the row the write raises and nothing is announced. */
  function ApplyReset(s: State, o: Selection): State {
    var s1 := s.(selected := s.selected - multiset{o});
    if o.row.status != Indexing then s1.(outbox := Announce(s1, o.doc, RequeueKind(o.row), false))
    else if HasRow(s, o.doc) then
      s1.(docs := s.docs[o.doc := s.docs[o.doc].(row := Some(ResetRow(o.row, s.docs[o.doc].row.value)))],
          outbox := Announce(s1, o.doc, RequeueKind(o.row), false))
    else s1
  }

  /** A starting process takes the saved index if it can read it, and otherwise rebuilds its own from the store. */
  function ApplyLoad(s: State, w: nat, readable: bool, reachable: bool): State
    requires w < |s.bm25|
  {
    if readable && s.file.Some? then s.(bm25 := s.bm25[w := s.file]) else RefreshIndex(s.(bm25 := s.bm25[w := None]), w, reachable)
  }

  function Apply(s: State, l: Label): State
    requires Enabled(s, l)
  {
    match l
    case UploadDocument(d) => s.(docs := s.docs[d := NEW_DOC], outbox := Announce(s, d, Upload, true))
    case ReindexDocument(d) => s.(outbox := Announce(s, d, ReindexKind(s.docs[d].row.value), false))
    case Push(p) => s.(outbox := s.outbox - multiset{p}, queue := [p.job] + s.queue)
    case PushFails(p) =>
      var s1 := s.(outbox := s.outbox - multiset{p});
      if p.upload && p.job.doc in s.docs
      then s1.(docs := s.docs[p.job.doc := s.docs[p.job.doc].(row := None, hasBytes := false)])
      else s1
    case BeginDelete(d) => s.(deletes := s.deletes[d := Flushed])
    case EmptyForDelete(d) =>
      s.(docs := s.docs[d := EmptiedDoc(s.docs[d], s.docs[d].chunks.Keys)], deletes := s.deletes[d := Emptied])
    case EmptyForDeleteFails(d, gone) =>
      s.(docs := s.docs[d := EmptiedDoc(s.docs[d], gone)], deletes := s.deletes[d := Broken])
    case RefreshForDelete(d, w, reachable) => RefreshIndex(s.(deletes := s.deletes[d := Reported]), w, reachable)
    case CommitDelete(d) => s.(docs := s.docs[d := s.docs[d].(row := None)], deletes := s.deletes - {d})
    case RollbackDelete(d) => s.(deletes := s.deletes - {d})
    case StageDocument(d, g, texts, landed) => s.(docs := s.docs[d := StagedDoc(g, texts, landed)])
    case CommitStaged(d, g) => s.(docs := s.docs[d := PublishedDoc(s.docs[d], |s.docs[d].passes[g]|, s.now)])
    case UndoStaged(d, gone, deleted) =>
      s.(docs := s.docs[d := EmptiedDoc(s.docs[d], gone).(hasBytes := !deleted)])
    case RebuildIndex(w, reachable) => RefreshIndex(s, w, reachable)
    case SelectOrphan(d) => s.(selected := s.selected + multiset{Selection(d, s.docs[d].row.value)})
    case ResetOrphan(o) => ApplyReset(s, o)
    case ForgetOrphan(o) => s.(selected := s.selected - multiset{o})
    case SaveIndex(w) => s.(file := s.bm25[w])
    case LoadIndex(w, readable, reachable) => ApplyLoad(s, w, readable, reachable)
    case Tick(minutes) => s.(now := s.now + minutes)
    case Pop(w) =>
      s.(workers := s.workers[w := Popped(s.queue[|s.queue| - 1])], queue := s.queue[..|s.queue| - 1])
    case Claim(w) => ApplyClaim(s, w, s.workers[w].job)
    case Work(w, wl) => ApplyWork(s, w, wl)
    case PushRetry(w) => s.(workers := s.workers[w := Idle], queue := [s.workers[w].job] + s.queue)
    case Abandon(w) => s.(workers := s.workers[w := Idle])
  }

  function Initial(workers: nat): State {
    State(0, map[], [], multiset{}, multiset{}, map[], seq(workers, _ => Idle), seq(workers, _ => None), None)
  }

  // ---- Runs ----

  /** Every label of the run is enabled when its turn comes. */
  predicate IsRun(s: State, ls: seq<Label>)
    decreases |ls|
  {
    ls == [] || (Enabled(s, ls[0]) && IsRun(Apply(s, ls[0]), ls[1..]))
  }

  function Final(s: State, ls: seq<Label>): State
    requires IsRun(s, ls)
    decreases |ls|
  {
    if ls == [] then s else Final(Apply(s, ls[0]), ls[1..])
  }

  lemma {:induction false} Extend(s: State, ls: seq<Label>, l: Label)
    requires IsRun(s, ls) && Enabled(Final(s, ls), l)
    ensures IsRun(s, ls + [l]) && Final(s, ls + [l]) == Apply(Final(s, ls), l)
    decreases |ls|
  {
    if ls == [] {
      assert [l][1..] == [];
    } else {
      Extend(Apply(s, ls[0]), ls[1..], l);
      assert (ls + [l])[1..] == ls[1..] + [l];
    }
  }

  lemma {:induction false} RunOfConcat(s: State, a: seq<Label>, b: seq<Label>)
    requires IsRun(s, a) && IsRun(Final(s, a), b)
    ensures IsRun(s, a + b) && Final(s, a + b) == Final(Final(s, a), b)
    decreases |a|
  {
    if a == [] {
      assert a + b == b;
    } else {
      RunOfConcat(Apply(s, a[0]), a[1..], b);
      assert (a + b)[1..] == a[1..] + b;
    }
  }

  /** Some run leads from `s` to `s'`. */
  ghost predicate LeadsTo(s: State, s': State) {
    exists ls :: IsRunTo(s, ls, s')
  }

  ghost predicate IsRunTo(s: State, ls: seq<Label>, s': State) {
    IsRun(s, ls) && Final(s, ls) == s'
  }
}
