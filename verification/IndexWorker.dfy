/** The index worker and the stores it writes to, as the program has them: objects updated in
    place. A worker's whole life is shown to be a run of the protocol in IndexModel. */
module IndexWorker {
  import opened Wrappers
  import opened IndexModel

  /** The documents table; `now` is the database clock. */
  class DocumentRepo {
    var rows: map<DocId, Row>
    var now: nat

    constructor ()
      ensures rows == map[]
    {
      rows := map[];
    }

    method ClaimForIndexing(d: DocId, allowActive: bool) returns (claimed: bool)
      modifies this`rows
      ensures claimed <==>
        (d in old(rows) && (old(rows)[d].status in {Pending, Failed} || (allowActive && old(rows)[d].status == Active)))
      ensures rows == if claimed then old(rows)[d := old(rows)[d].(status := Indexing, startedAt := Some(now))] else old(rows)
    {
      if d in rows && (rows[d].status == Pending || rows[d].status == Failed || (allowActive && rows[d].status == Active)) {
        rows := rows[d := rows[d].(status := Indexing, startedAt := Some(now))];
        return true;
      }
      return false;
    }

    method UpdateStatus(d: DocId, status: Status, chunkCount: Option<nat>)
      modifies this`rows
      ensures rows == if d in old(rows) then old(rows)[d := WithStatus(old(rows)[d], status, chunkCount, now)] else old(rows)
      ensures d in old(rows) ==>
        && rows[d].status == status && rows[d].hasKey == old(rows)[d].hasKey
        && rows[d].chunkCount == (if chunkCount.Some? then chunkCount.value else old(rows)[d].chunkCount)
        && rows[d].indexedAt == (if status == Active then Some(now) else old(rows)[d].indexedAt)
        && rows[d].startedAt == (if status == Indexing then old(rows)[d].startedAt else None)
    {
      if d in rows {
        var row := rows[d].(status := status);
        if chunkCount.Some? {
          row := row.(chunkCount := chunkCount.value);
        }
        if status == Active {
          row := row.(indexedAt := Some(now));
        }
        if status != Indexing {
          row := row.(startedAt := None);
        }
        rows := rows[d := row];
      }
    }

    method MarkFailed(d: DocId)
      modifies this`rows
      ensures rows == if d in old(rows) then old(rows)[d := WithStatus(old(rows)[d], Failed, None, now)] else old(rows)
    {
      UpdateStatus(d, Failed, None);
    }

    method RestoreActive(d: DocId, chunkCount: nat)
      modifies this`rows
      ensures rows == if d in old(rows) then old(rows)[d := RestoredRow(old(rows)[d], chunkCount)] else old(rows)
    {
      if d in rows {
        rows := rows[d := rows[d].(status := Active, chunkCount := chunkCount, startedAt := None)];
      }
    }
  }

  datatype Entry = Entry(doc: DocId, slot: Slot)

  function SlotsOf(entries: map<Entry, string>, d: DocId): (r: set<Slot>)
    ensures forall c :: c in r <==> Entry(d, c) in entries
  {
    var r := set e | e in entries && e.doc == d :: e.slot;
    assert forall c :: Entry(d, c) in entries ==> Entry(d, c).slot in r;
    r
  }

  /** The chunk is one of those that land. */
  predicate Lands(x: Entry, d: DocId, g: nat, texts: seq<string>, landed: set<Slot>) {
    x.doc == d && x.slot in landed && x.slot.generation == g && x.slot.index < |texts|
  }

  /** The table with the chunks that land added. */
  function Added(entries: map<Entry, string>, d: DocId, g: nat, texts: seq<string>, landed: set<Slot>): map<Entry, string> {
    entries + map c | c in Slots(g, texts) && c in landed :: Entry(d, c) := texts[c.index]
  }

  lemma AddedOf(entries: map<Entry, string>, d: DocId, g: nat, texts: seq<string>, landed: set<Slot>)
    ensures ChunksOf(Added(entries, d, g, texts, landed), d) == WithChunks(ChunksOf(entries, d), g, texts, landed)
  {
    var a := ChunksOf(Added(entries, d, g, texts, landed), d);
    var b := WithChunks(ChunksOf(entries, d), g, texts, landed);
    assert a.Keys == b.Keys;
    forall c | c in a ensures a[c] == b[c] {
    }
  }

  /** The part of a flat chunk table that belongs to one document. */
  function ChunksOf(entries: map<Entry, string>, d: DocId): Chunks {
    map c: Slot | c in SlotsOf(entries, d) :: entries[Entry(d, c)]
  }

  /** The chunk collection: one flat table for all documents. */
  class VectorStore {
    var entries: map<Entry, string>

    constructor ()
      ensures entries == map[]
    {
      entries := map[];
    }

    /** Adds the chunks that land; a failing call may land any part. */
    method Add(d: DocId, g: nat, texts: seq<string>, landed: set<Slot>)
      modifies this
      ensures ChunksOf(entries, d) == WithChunks(ChunksOf(old(entries), d), g, texts, landed)
      ensures forall x :: x in entries <==> x in old(entries) || Lands(x, d, g, texts, landed)
      ensures forall x <- entries :: entries[x] == if Lands(x, d, g, texts, landed) then texts[x.slot.index] else old(entries)[x]
      ensures forall e :: e != d ==> ChunksOf(entries, e) == ChunksOf(old(entries), e)
      ensures forall x <- entries :: x in old(entries) || x.doc == d
    {
      ghost var before := entries;
      entries := Added(entries, d, g, texts, landed);
      AddedOf(before, d, g, texts, landed);
      OnlyDocChanges(before, entries, d);
    }

    /** Deletes every chunk of the document except those to keep and says how many. */
    method DeleteDocChunksExcept(d: DocId, keep: set<Slot>) returns (deleted: nat)
      modifies this
      ensures ChunksOf(entries, d) == Without(ChunksOf(old(entries), d), ChunksOf(old(entries), d).Keys - keep)
      ensures forall x :: x in entries <==> x in old(entries) && (x.doc == d ==> x.slot in keep)
      ensures forall e :: e != d ==> ChunksOf(entries, e) == ChunksOf(old(entries), e)
      ensures forall x <- entries :: x in old(entries) || x.doc == d
      ensures deleted == |ChunksOf(old(entries), d).Keys - keep|
    {
      var toDelete := set e | e in entries && e.doc == d && e.slot !in keep;
      Delete(d, toDelete);
      SlotsDeleted(old(entries), d, keep, toDelete);
      SameSize(entries, d, toDelete, ChunksOf(old(entries), d).Keys - keep);
      deleted := |toDelete|;
    }

    method DeleteByDocId(d: DocId)
      modifies this
      ensures ChunksOf(entries, d) == map[]
      ensures forall x :: x in entries <==> x in old(entries) && x.doc != d
      ensures forall e :: e != d ==> ChunksOf(entries, e) == ChunksOf(old(entries), e)
      ensures forall x <- entries :: x in old(entries) || x.doc == d
    {
      Delete(d, set e | e in entries && e.doc == d);
    }

    method DeleteSlots(d: DocId, gone: set<Slot>)
      modifies this
      ensures ChunksOf(entries, d) == Without(ChunksOf(old(entries), d), gone)
      ensures forall e :: e != d ==> ChunksOf(entries, e) == ChunksOf(old(entries), e)
      ensures forall x <- entries :: x in old(entries) || x.doc == d
    {
      var es := set c <- gone :: Entry(d, c);
      Delete(d, es);
      assert forall c <- gone :: Entry(d, c) in es && Entry(d, c).slot == c;
      assert (set e <- es :: e.slot) == gone;
    }

    method Delete(d: DocId, gone: set<Entry>)
      requires forall e <- gone :: e.doc == d
      modifies this
      ensures ChunksOf(entries, d) == Without(ChunksOf(old(entries), d), set e <- gone :: e.slot)
      ensures entries == old(entries) - gone
      ensures forall e :: e != d ==> ChunksOf(entries, e) == ChunksOf(old(entries), e)
      ensures forall x <- entries :: x in old(entries) || x.doc == d
    {
      ghost var before := entries;
      entries := entries - gone;
      OnlyDocChanges(before, entries, d);
      assert forall c: Slot :: c in ChunksOf(entries, d) <==> Entry(d, c) in entries;
      assert forall c: Slot :: c in ChunksOf(before, d) <==> Entry(d, c) in before;
      assert forall c: Slot :: c in (set e <- gone :: e.slot) <==> Entry(d, c) in gone;
    }
  }

  lemma SlotsDeleted(entries: map<Entry, string>, d: DocId, keep: set<Slot>, gone: set<Entry>)
    requires gone == set e | e in entries && e.doc == d && e.slot !in keep
    ensures (set e <- gone :: e.slot) == ChunksOf(entries, d).Keys - keep
  {
    forall c: Slot ensures c in (set e <- gone :: e.slot) <==> c in ChunksOf(entries, d).Keys - keep {
      if Entry(d, c) in gone { assert Entry(d, c).slot == c; }
    }
  }

  lemma OnlyDocChanges(before: map<Entry, string>, after: map<Entry, string>, d: DocId)
    requires forall e: Entry :: e.doc != d ==> (e in before <==> e in after) && (e in before ==> before[e] == after[e])
    ensures forall e :: e != d ==> ChunksOf(after, e) == ChunksOf(before, e)
  {
  }

  lemma SameSize(entries: map<Entry, string>, d: DocId, a: set<Entry>, b: set<Slot>)
    requires forall e <- a :: e.doc == d && e.slot in b
    requires forall c <- b :: Entry(d, c) in a
    ensures |a| == |b|
    decreases a
  {
    if a == {} {
      if c :| c in b { assert Entry(d, c) in a; }
    } else {
      var e :| e in a;
      assert e == Entry(d, e.slot);
      SameSize(entries, d, a - {e}, b - {e.slot});
    }
  }

  /** The Redis list: pushed on the left, popped from the right. `None` stands for a payload that is no job. */
  class JobQueue {
    var items: seq<Option<Job>>

    constructor ()
      ensures items == []
    {
      items := [];
    }

    method Enqueue(job: Job)
      modifies this
      ensures items == [Some(job)] + old(items)
    {
      items := [Some(job)] + items;
    }

    /** Takes the oldest payload, and drops it when it is no job. */
    method Pop() returns (job: Option<Job>)
      modifies this
      ensures old(items) == [] ==> job == None && items == []
      ensures old(items) != [] ==> items + [job] == old(items)
    {
      if items == [] {
        return None;
      }
      job := items[|items| - 1];
      items := items[..|items| - 1];
    }
  }

  // ---- What the environment answers ----

  datatype RefreshAnswer = Rebuilt | Unreachable | Raises

  datatype Source = Source(generation: nat, texts: seq<string>)

  /** The claim's transaction: it commits and the row is read back, its commit raises, or the reading does. */
  datatype ClaimAnswer = Claims | CommitRaises | ReadRaises

  /** One answer for every call that can fail; `None` for `source` means that reading, parsing
      or embedding the document raised. A failing store call says what it did before it failed. */
  datatype Answers = Answers(
    claim: ClaimAnswer,
    service: bool,
    source: Option<Source>,
    addFails: Option<set<Slot>>,
    sweepFails: Option<set<Slot>>,
    refresh: RefreshAnswer,
    finalize: bool,
    dropFails: Option<set<Slot>>,
    dropRefresh: RefreshAnswer,
    bytesDeleted: bool,
    retryWrite: bool,
    retryPush: bool,
    terminalWrite: bool)

  /** A full read of the collection, grouped by document. */
  function Grouped(entries: map<Entry, string>): map<DocId, Chunks> {
    map d | d in (set e <- entries :: e.doc) :: ChunksOf(entries, d)
  }

  /** The grouped table holds every chunk of the collection, under its document, and nothing else. */
  lemma GroupedIsTheStore(entries: map<Entry, string>, d: DocId, c: Slot)
    ensures (d in Grouped(entries) && c in Grouped(entries)[d]) <==> Entry(d, c) in entries
    ensures Entry(d, c) in entries ==> Grouped(entries)[d][c] == entries[Entry(d, c)]
  {
    if Entry(d, c) in entries { assert Entry(d, c).doc in (set e <- entries :: e.doc); }
  }

  /** `Abandoned` when an exception leaves the claim or the failure handler before the row is written. */
  datatype Outcome = Succeeded | Unsuccessful | Skipped | Abandoned

  datatype ClaimResult = Won(snap: Row) | Lost | Raised

  // ---- The worker ----

  /** The worker's view of its job: where it started, the steps since, and where it stands. */
  datatype Journal = Journal(start: Pc, startDoc: Doc, now: nat, steps: seq<WorkerLabel>, pc: Pc, doc: Doc)

  ghost predicate Faithful(j: Journal) {
    IsLocalRun(j.start, j.startDoc, j.now, j.steps) && LocalEnd(j.start, j.startDoc, j.now, j.steps) == (j.pc, j.doc)
  }

  ghost function Noted(j: Journal, l: WorkerLabel): (r: Journal)
    requires Faithful(j) && Holds(j.pc) && CanStep(j.pc, j.doc, l)
    ensures Faithful(r)
  {
    LocalRunExtends(j.start, j.startDoc, j.now, j.steps, l);
    j.(steps := j.steps + [l], pc := NextPc(j.pc, l), doc := NextDoc(j.pc, j.doc, j.now, l))
  }

  /** No exception leaves the pass once the bytes are there. */
  predicate PassSucceeds(a: Answers) {
    a.source.Some?
    && (a.source.value.texts == [] || (a.addFails.None? && a.sweepFails.None? && !a.refresh.Raises?))
  }

  /** The failure handler's one write of the row is committed. */
  predicate FailureWritten(job: Job, a: Answers) {
    if job.attempt < MAX_INDEX_ATTEMPTS then a.retryWrite else a.terminalWrite
  }

  /** What comes of a job whose document can be claimed. */
  function JobOutcome(job: Job, hasKey: bool, hasBytes: bool, a: Answers): Outcome {
    if a.claim != Claims then Abandoned
    else if hasKey && a.service && hasBytes && PassSucceeds(a) && a.finalize then Succeeded
    else if FailureWritten(job, a) then Unsuccessful
    else Abandoned
  }

  /** What a job puts back into the queue: itself for one more attempt, if it failed with attempts left and the
      push succeeds. */
  function Retries(job: Job, outcome: Outcome, a: Answers): seq<Option<Job>> {
    if outcome == Unsuccessful && job.attempt < 3 && a.retryPush then [Some(Job(job.doc, job.kind, job.attempt + 1))] else []
  }

  /** The texts of a generation at their places. */
  function Cut(source: Source): Chunks {
    map c: Slot | c in Slots(source.generation, source.texts) :: source.texts[c.index]
  }

  lemma SweptAfterAdd(chunks: Chunks, g: nat, texts: seq<string>)
    ensures Swept(WithChunks(chunks, g, texts, Slots(g, texts)), g, texts) == Cut(Source(g, texts))
  {
  }

  function RowsAfterRetry(rows: map<DocId, Row>, job: Job, snap: Row, now: nat): map<DocId, Row> {
    if job.doc in rows then rows[job.doc := RetryRow(job, snap, rows[job.doc], now)] else rows
  }

  function RowsAfterGivingUp(rows: map<DocId, Row>, job: Job, snap: Row, now: nat): map<DocId, Row> {
    if job.doc in rows then rows[job.doc := TerminalRow(job, snap, rows[job.doc], now)] else rows
  }

  function RowsAfterSuccess(rows: map<DocId, Row>, job: Job, count: nat, now: nat): map<DocId, Row> {
    if job.doc in rows then rows[job.doc := WithStatus(rows[job.doc], Active, Some(count), now)] else rows
  }

  function RowsAfterFailure(rows: map<DocId, Row>, job: Job, snap: Row, now: nat): map<DocId, Row> {
    if job.attempt < MAX_INDEX_ATTEMPTS then RowsAfterRetry(rows, job, snap, now)
    else RowsAfterGivingUp(rows, job, snap, now)
  }

  /** The row that failed as the claim had left it gets its next status, by kind and attempt, and nothing else
      of it changes. */
  lemma RowAfterFailure(rows: map<DocId, Row>, job: Job, snap: Row, now: nat)
    requires job.doc in rows && rows[job.doc] == snap
    ensures RowsAfterFailure(rows, job, snap, now) == rows[job.doc := snap.(
      startedAt := None, status := if job.kind == Reindex then Active else if job.attempt < 3 then Pending else Failed)]
  {
  }

  ghost predicate SameStart(j: Journal, j': Journal) {
    j'.start == j.start && j'.startDoc == j.startDoc && j'.now == j.now
  }

  class Worker {
    const repo: DocumentRepo
    const store: VectorStore
    const queue: JobQueue
    var bytes: set<DocId>
    var bm25: Option<map<DocId, Chunks>>

    constructor ()
      ensures fresh(repo) && fresh(store) && fresh(queue)
      ensures repo.rows == map[] && store.entries == map[] && queue.items == [] && bytes == {} && bm25 == None
    {
      repo := new DocumentRepo();
      store := new VectorStore();
      queue := new JobQueue();
      bytes, bm25 := {}, None;
    }

    /** The journal is a run of the protocol, and the stores hold of document `d` what it says. */
    ghost predicate Agrees(j: Journal, d: DocId)
      reads this, repo, store
    {
      && Faithful(j)
      && j.now == repo.now
      && j.doc.row == (if d in repo.rows then Some(repo.rows[d]) else None)
      && j.doc.chunks == ChunksOf(store.entries, d)
      && j.doc.hasBytes == (d in bytes)
    }

    /** Reads, cuts and embeds the source; `None` when that raises. */
    method LoadSource(d: DocId, source: Option<Source>, ghost j: Journal) returns (r: Option<Source>, ghost j': Journal)
      requires Agrees(j, d) && j.pc.Ready?
      requires source.Some? ==> FreshGeneration(j.doc, source.value.generation)
      ensures Agrees(j', d) && SameStart(j, j')
      ensures r == if d in bytes then source else None
      ensures j'.pc == NextPc(j.pc, if r.None? then Raise else Load(r.value.generation, r.value.texts))
    {
      if d !in bytes || source.None? {
        return None, Noted(j, Raise);
      }
      return source, Noted(j, Load(source.value.generation, source.value.texts));
    }

    /** Adds the new generation; false when the store raises. */
    method AddChunks(d: DocId, g: nat, texts: seq<string>, fails: Option<set<Slot>>, ghost j: Journal)
      returns (ok: bool, ghost j': Journal)
      requires Agrees(j, d) && j.pc.Adding? && j.pc.generation == g && j.pc.texts == texts
      modifies store
      ensures Agrees(j', d) && SameStart(j, j') && ok == fails.None?
      ensures ok ==> ChunksOf(store.entries, d) == WithChunks(ChunksOf(old(store.entries), d), g, texts, Slots(g, texts))
      ensures j'.pc == if ok then Sweeping(j.pc.job, j.pc.snap, g, texts) else Failing(j.pc.job, j.pc.snap, true)
      ensures forall e :: e != d ==> ChunksOf(store.entries, e) == ChunksOf(old(store.entries), e)
    {
      var landed := if fails.Some? then fails.value * Slots(g, texts) else Slots(g, texts);
      store.Add(d, g, texts, landed);
      return fails.None?, Noted(j, if fails.Some? then AddFails(landed) else Add);
    }

    /** Deletes all other generations; false when the store raises. */
    method SweepChunks(d: DocId, g: nat, texts: seq<string>, fails: Option<set<Slot>>, ghost j: Journal)
      returns (ok: bool, ghost j': Journal)
      requires Agrees(j, d) && j.pc.Sweeping? && j.pc.generation == g && j.pc.texts == texts
      modifies store
      ensures Agrees(j', d) && SameStart(j, j') && ok == fails.None?
      ensures ok ==> ChunksOf(store.entries, d) == Swept(ChunksOf(old(store.entries), d), g, texts)
      ensures j'.pc == if ok then Refreshing(j.pc.job, j.pc.snap, g, texts) else Failing(j.pc.job, j.pc.snap, true)
      ensures forall e :: e != d ==> ChunksOf(store.entries, e) == ChunksOf(old(store.entries), e)
    {
      if fails.Some? {
        var removed := fails.value * (ChunksOf(store.entries, d).Keys - Slots(g, texts));
        store.DeleteSlots(d, removed);
        return false, Noted(j, SweepFails(removed));
      }
      var _ := store.DeleteDocChunksExcept(d, Slots(g, texts));
      return true, Noted(j, Sweep);
    }

    /** Rebuilds the BM25 mirror from a full read, unless the store cannot be read. */
    method RefreshBm25(d: DocId, answer: RefreshAnswer, ghost j: Journal) returns (ghost j': Journal)
      requires Agrees(j, d) && (j.pc.Refreshing? || j.pc.RefreshingAfterDrop?)
      modifies this`bm25
      ensures Agrees(j', d) && SameStart(j, j')
      ensures j'.pc == NextPc(j.pc, if answer.Raises? then Raise else Refresh(answer.Rebuilt?))
      ensures bm25 == if answer.Rebuilt? then Some(Grouped(store.entries)) else old(bm25)
    {
      if answer.Rebuilt? {
        bm25 := Some(Grouped(store.entries));
      }
      return Noted(j, if answer.Raises? then Raise else Refresh(answer.Rebuilt?));
    }

    /** Replaces what is stored for a document by one new generation; false when an exception leaves it. */
    method ReplaceChunks(d: DocId, g: nat, texts: seq<string>, a: Answers, ghost j: Journal)
      returns (ok: bool, ghost j': Journal)
      requires Agrees(j, d) && j.pc.Adding? && j.pc.generation == g && j.pc.texts == texts
      modifies this`bm25, store
      ensures Agrees(j', d) && SameStart(j, j')
      ensures ok == (a.addFails.None? && a.sweepFails.None? && !a.refresh.Raises?)
      ensures j'.pc == if ok then Finalizing(j.pc.job, j.pc.snap, |texts|) else Failing(j.pc.job, j.pc.snap, true)
      ensures ok ==> ChunksOf(store.entries, d) == Cut(Source(g, texts))
      ensures ok ==> bm25 == if a.refresh.Rebuilt? then Some(Grouped(store.entries)) else old(bm25)
      ensures forall e :: e != d ==> ChunksOf(store.entries, e) == ChunksOf(old(store.entries), e)
    {
      ghost var before := ChunksOf(store.entries, d);
      ok, j' := AddChunks(d, g, texts, a.addFails, j);
      if !ok {
        return;
      }
      ok, j' := SweepChunks(d, g, texts, a.sweepFails, j');
      if !ok {
        return;
      }
      SweptAfterAdd(before, g, texts);
      j' := RefreshBm25(d, a.refresh, j');
      ok := !a.refresh.Raises?;
    }

    /** One pass over a document: add the new generation, sweep the old ones, refresh the
        mirror; `None` when an exception leaves it. */
    method IndexDocument(d: DocId, a: Answers, ghost j: Journal) returns (count: Option<nat>, ghost j': Journal)
      requires Agrees(j, d) && j.pc.Ready?
      requires a.source.Some? ==> FreshGeneration(j.doc, a.source.value.generation)
      modifies this`bm25, store
      ensures Agrees(j', d) && SameStart(j, j')
      ensures j'.pc ==
        if count.Some? then Finalizing(j.pc.job, j.pc.snap, count.value) else Failing(j.pc.job, j.pc.snap, true)
      ensures count == if d in bytes && PassSucceeds(a) then Some(|a.source.value.texts|) else None
      ensures count.Some? && count.value == 0 ==> store.entries == old(store.entries) && bm25 == old(bm25)
      ensures count.Some? && count.value > 0 ==>
        && ChunksOf(store.entries, d) == Cut(a.source.value)
        && bm25 == if a.refresh.Rebuilt? then Some(Grouped(store.entries)) else old(bm25)
      ensures forall e :: e != d ==> ChunksOf(store.entries, e) == ChunksOf(old(store.entries), e)
    {
      var source;
      source, j' := LoadSource(d, a.source, j);
      if source.None? {
        return None, j';
      }
      var Source(g, texts) := source.value;
      if texts == [] {
        return Some(0), j';
      }
      var ok;
      ok, j' := ReplaceChunks(d, g, texts, a, j');
      return if ok then Some(|texts|) else None, j';
    }

    /** The first half of the cleanup: drop the chunks, if the failure came after the service was built. */
    method DropStoredChunks(d: DocId, a: Answers, ghost job: Job, ghost snap: Row, ghost j: Journal)
      returns (ghost j': Journal)
      requires Agrees(j, d) && j.pc == DroppingChunks(job, snap)
      modifies this`bm25, store
      ensures Agrees(j', d) && SameStart(j, j') && j'.pc == AfterDrop(job, snap)
      ensures a.dropFails.None? ==> ChunksOf(store.entries, d) == map[]
      ensures forall e :: e != d ==> ChunksOf(store.entries, e) == ChunksOf(old(store.entries), e)
    {
      if a.dropFails.None? {
        store.DeleteByDocId(d);
        j' := Noted(j, DropChunks);
        j' := RefreshBm25(d, a.dropRefresh, j');
      } else {
        var gone := a.dropFails.value * ChunksOf(store.entries, d).Keys;
        store.DeleteSlots(d, gone);
        j' := Noted(j, DropChunksFails(gone));
      }
    }

    /** Undoes a first upload whose attempts are used up: chunks, then bytes; failures are logged and skipped. */
    method CleanupFirstIndex(d: DocId, hasService: bool, hasKey: bool, a: Answers, ghost job: Job, ghost snap: Row, ghost j: Journal)
      returns (ghost j': Journal)
      requires Agrees(j, d) && j.pc == AfterGiveUp(job, snap, hasService)
      requires job.kind == Upload && snap.hasKey == hasKey
      modifies this`bm25, this`bytes, store
      ensures Agrees(j', d) && SameStart(j, j') && j'.pc == Terminal(job, snap)
      ensures bytes == if hasKey && a.bytesDeleted then old(bytes) - {d} else old(bytes)
      ensures hasService && a.dropFails.None? ==> ChunksOf(store.entries, d) == map[]
      ensures !hasService ==> store.entries == old(store.entries)
      ensures forall e :: e != d ==> ChunksOf(store.entries, e) == ChunksOf(old(store.entries), e)
    {
      j' := j;
      if hasService {
        j' := DropStoredChunks(d, a, job, snap, j);
      }
      if hasKey {
        if a.bytesDeleted {
          bytes := bytes - {d};
        }
        j' := Noted(j', DropBytes(a.bytesDeleted));
      }
    }

    method SetRetryState(job: Job, snap: Row, ghost j: Journal) returns (ghost j': Journal)
      requires Agrees(j, job.doc) && j.pc.Failing? && j.pc.job == job && j.pc.snap == snap
      requires job.attempt < MAX_INDEX_ATTEMPTS
      modifies repo`rows
      ensures Agrees(j', job.doc) && SameStart(j, j')
      ensures j'.pc == Requeueing(job.(attempt := job.attempt + 1))
      ensures repo.rows == RowsAfterRetry(old(repo.rows), job, snap, repo.now)
    {
      if job.kind == Upload {
        repo.UpdateStatus(job.doc, Pending, Some(snap.chunkCount));
      } else {
        repo.RestoreActive(job.doc, snap.chunkCount);
      }
      j' := Noted(j, Retry);
    }

    method SetTerminalFailure(job: Job, snap: Row, ghost j: Journal) returns (ghost j': Journal)
      requires Agrees(j, job.doc) && j.pc == Terminal(job, snap)
      modifies repo`rows
      ensures Agrees(j', job.doc) && SameStart(j, j') && j'.pc == Idle
      ensures repo.rows == RowsAfterGivingUp(old(repo.rows), job, snap, repo.now)
    {
      if job.kind == Upload {
        repo.MarkFailed(job.doc);
      } else {
        repo.RestoreActive(job.doc, snap.chunkCount);
      }
      j' := Noted(j, MarkTerminal);
    }

    /** Claims the popped job's document; lost when another worker has it or it is gone. When it raises, the row
        is claimed all the same unless the commit was what raised. */
    method ClaimJob(job: Job, answer: ClaimAnswer) returns (r: ClaimResult)
      modifies repo`rows
      ensures
        var rows := old(repo.rows);
        if !(job.doc in rows && Claimable(rows[job.doc], job.kind == Reindex)) then r == Lost && repo.rows == rows
        else
          && r == (if answer == Claims then Won(ClaimedRow(rows[job.doc], repo.now)) else Raised)
          && repo.rows == if answer == CommitRaises then rows else rows[job.doc := ClaimedRow(rows[job.doc], repo.now)]
    {
      var before := repo.rows;
      var claimed := repo.ClaimForIndexing(job.doc, job.kind == Reindex);
      if !claimed { return Lost; }
      if answer == CommitRaises {
        repo.rows := before;
        return Raised;
      }
      return if answer == Claims then Won(repo.rows[job.doc]) else Raised;
    }

    method FinalizeSuccess(d: DocId, count: nat, ghost j: Journal) returns (ghost j': Journal)
      requires Agrees(j, d) && j.pc.Finalizing? && j.pc.count == count
      modifies repo`rows
      ensures Agrees(j', d) && SameStart(j, j') && j'.pc == Idle
      ensures repo.rows == if d in old(repo.rows)
        then old(repo.rows)[d := WithStatus(old(repo.rows)[d], Active, Some(count), repo.now)] else old(repo.rows)
    {
      repo.UpdateStatus(d, Active, Some(count));
      j' := Noted(j, Finalize);
    }

    /** The document's chunks are the new texts and the mirror is rebuilt if the store can be read, or nothing has
        changed because there is no text. */
    ghost predicate Indexed(d: DocId, a: Answers, entries: map<Entry, string>, mirror: Option<map<DocId, Chunks>>)
      requires a.source.Some?
      reads this, store
    {
      if a.source.value.texts == [] then store.entries == entries && bm25 == mirror
      else
        && ChunksOf(store.entries, d) == Cut(a.source.value)
        && bm25 == if a.refresh.Rebuilt? then Some(Grouped(store.entries)) else mirror
    }

    /** A first upload that has failed for good has no chunk and no bytes left, as far as the stores obey; any other
        failed job leaves the bytes for the next attempt. */
    ghost predicate LeftBehind(job: Job, hasKey: bool, a: Answers, had: set<DocId>)
      reads this, store
    {
      if job.kind == Upload && job.attempt >= 3 then
        && (hasKey && a.service && a.dropFails.None? ==> ChunksOf(store.entries, job.doc) == map[])
        && bytes == if hasKey && a.bytesDeleted then had - {job.doc} else had
      else bytes == had
    }

    /** The row in the end, as it was before the claim but for what the outcome changes. */
    static function EndRow(was: Row, job: Job, outcome: Outcome, a: Answers, now: nat): Row {
      match outcome
      case Succeeded =>
        was.(status := Active, chunkCount := if a.source.Some? then |a.source.value.texts| else 0,
             indexedAt := Some(now), startedAt := None)
      case Unsuccessful =>
        was.(startedAt := None, status := if job.kind == Reindex then Active else if job.attempt < 3 then Pending else Failed)
      case Abandoned => was.(status := Indexing, startedAt := Some(now))
      case Skipped => was
    }

    /** What a claimed job comes to, from the rows before its claim and everything else as it was. */
    ghost predicate Ended(job: Job, a: Answers, outcome: Outcome, rows: map<DocId, Row>, items: seq<Option<Job>>,
                          entries: map<Entry, string>, had: set<DocId>, mirror: Option<map<DocId, Chunks>>)
      requires job.doc in rows
      reads this, repo, store, queue
    {
      && repo.rows == rows[job.doc := EndRow(rows[job.doc], job, outcome, a, repo.now)]
      && queue.items == Retries(job, outcome, a) + items
      && (outcome == Succeeded ==> a.source.Some? && bytes == had && Indexed(job.doc, a, entries, mirror))
      && (outcome == Unsuccessful ==> LeftBehind(job, rows[job.doc].hasKey, a, had))
      && forall e :: e != job.doc ==> ChunksOf(store.entries, e) == ChunksOf(entries, e)
    }

    /** The claim has written `snap` over the rows. */
    ghost predicate IsClaimed(job: Job, snap: Row, rows: map<DocId, Row>)
      reads repo
    {
      && job.doc in rows && snap == rows[job.doc].(status := Indexing, startedAt := Some(repo.now))
      && repo.rows == rows[job.doc := snap]
    }

    /** The try branch: build the service, index the document, write the success. */
    method TryIndex(job: Job, snap: Row, a: Answers, ghost rows: map<DocId, Row>, ghost j: Journal)
      returns (succeeded: bool, ghost j': Journal)
      requires Agrees(j, job.doc) && j.pc == Claimed(job, snap)
      requires IsClaimed(job, snap, rows)
      requires a.source.Some? ==> FreshGeneration(j.doc, a.source.value.generation)
      modifies this`bm25, store, repo`rows
      ensures Agrees(j', job.doc) && SameStart(j, j')
      ensures succeeded <==> snap.hasKey && a.service && job.doc in bytes && PassSucceeds(a) && a.finalize
      ensures j'.pc == if succeeded then Idle else Failing(job, snap, snap.hasKey && a.service)
      ensures succeeded ==> Ended(job, a, Succeeded, rows, queue.items, old(store.entries), bytes, old(bm25))
      ensures !succeeded ==> repo.rows == old(repo.rows)
      ensures forall e :: e != job.doc ==> ChunksOf(store.entries, e) == ChunksOf(old(store.entries), e)
    {
      if !snap.hasKey || !a.service {
        return false, Noted(j, Raise);
      }
      j' := Noted(j, Build);
      var count;
      count, j' := IndexDocument(job.doc, a, j');
      succeeded := count.Some? && a.finalize;
      if succeeded {
        j' := FinalizeSuccess(job.doc, count.value, j');
      } else if count.Some? {
        j' := Noted(j', Raise);
      }
    }

    /** The row goes back to where the next attempt can claim it, and that attempt is pushed. */
    method RetryJob(job: Job, snap: Row, a: Answers, ghost rows: map<DocId, Row>, ghost j: Journal)
      returns (written: bool, ghost j': Journal)
      requires Agrees(j, job.doc) && j.pc.Failing? && j.pc.job == job && j.pc.snap == snap && job.attempt < MAX_INDEX_ATTEMPTS
      requires IsClaimed(job, snap, rows)
      modifies repo`rows, queue
      ensures Agrees(j', job.doc) && SameStart(j, j') && written == a.retryWrite == !Holds(j'.pc)
      ensures written ==> j'.pc == Requeueing(job.(attempt := job.attempt + 1))
      ensures Ended(job, a, if written then Unsuccessful else Abandoned, rows, old(queue.items), store.entries, bytes, bm25)
      ensures written && a.retryPush ==> queue.items == [Some(Job(job.doc, job.kind, job.attempt + 1))] + old(queue.items)
    {
      j' := j;
      written := a.retryWrite;
      if written {
        j' := SetRetryState(job, snap, j);
        RowAfterFailure(old(repo.rows), job, snap, repo.now);
        if a.retryPush {
          queue.Enqueue(job.(attempt := job.attempt + 1));
        }
      }
    }

    /** A first upload is undone as far as the stores obey; a reindex leaves what it has. */
    method GiveUpOn(job: Job, snap: Row, hasService: bool, a: Answers, ghost j: Journal) returns (ghost j': Journal)
      requires Agrees(j, job.doc) && j.pc == Failing(job, snap, hasService) && job.attempt >= MAX_INDEX_ATTEMPTS
      requires hasService == (snap.hasKey && a.service)
      modifies this`bm25, this`bytes, store
      ensures Agrees(j', job.doc) && SameStart(j, j') && j'.pc == Terminal(job, snap)
      ensures LeftBehind(job, snap.hasKey, a, old(bytes))
      ensures job.kind == Reindex ==> store.entries == old(store.entries) && bytes == old(bytes)
      ensures forall e :: e != job.doc ==> ChunksOf(store.entries, e) == ChunksOf(old(store.entries), e)
    {
      j' := Noted(j, GiveUp);
      if job.kind == Upload {
        j' := CleanupFirstIndex(job.doc, hasService, snap.hasKey, a, job, snap, j');
      }
    }

    /** The last attempt has failed: clean up a first upload, and write the final status. */
    method FailForGood(job: Job, snap: Row, hasService: bool, a: Answers, ghost rows: map<DocId, Row>, ghost j: Journal)
      returns (written: bool, ghost j': Journal)
      requires Agrees(j, job.doc) && j.pc == Failing(job, snap, hasService) && job.attempt >= MAX_INDEX_ATTEMPTS
      requires IsClaimed(job, snap, rows) && hasService == (snap.hasKey && a.service)
      modifies this`bm25, this`bytes, store, repo`rows
      ensures Agrees(j', job.doc) && SameStart(j, j') && written == a.terminalWrite
      ensures j'.pc == if written then Idle else Terminal(job, snap)
      ensures Ended(job, a, if written then Unsuccessful else Abandoned, rows, queue.items, old(store.entries), old(bytes), old(bm25))
      ensures job.kind == Reindex ==> store.entries == old(store.entries) && bytes == old(bytes)
    {
      j' := GiveUpOn(job, snap, hasService, a, j);
      written := a.terminalWrite;
      if written {
        j' := SetTerminalFailure(job, snap, j');
        RowAfterFailure(old(repo.rows), job, snap, repo.now);
      }
    }

    /** The except branch: retry while attempts are left, otherwise fail for good. False when it raises before
        the row is written, and then the row stays as the claim left it and no retry is pushed. */
    method HandleFailure(job: Job, snap: Row, hasService: bool, a: Answers, ghost rows: map<DocId, Row>, ghost j: Journal)
      returns (written: bool, ghost j': Journal)
      requires Agrees(j, job.doc) && j.pc == Failing(job, snap, hasService)
      requires IsClaimed(job, snap, rows) && hasService == (snap.hasKey && a.service)
      modifies this`bm25, this`bytes, store, repo`rows, queue
      ensures Agrees(j', job.doc) && SameStart(j, j') && written == FailureWritten(job, a) == !Holds(j'.pc)
      ensures written ==>
        j'.pc == if job.attempt < MAX_INDEX_ATTEMPTS then Requeueing(job.(attempt := job.attempt + 1)) else Idle
      ensures Ended(job, a, if written then Unsuccessful else Abandoned, rows, old(queue.items), old(store.entries), old(bytes), old(bm25))
      ensures job.attempt < 3 || job.kind == Reindex ==> store.entries == old(store.entries) && bytes == old(bytes)
    {
      if job.attempt < MAX_INDEX_ATTEMPTS {
        written, j' := RetryJob(job, snap, a, rows, j);
      } else {
        written, j' := FailForGood(job, snap, hasService, a, rows, j);
      }
    }

    /** What happens to the job's document once it is claimed. */
    method RunClaimedJob(job: Job, snap: Row, a: Answers, ghost rows: map<DocId, Row>, ghost j: Journal)
      returns (outcome: Outcome, ghost j': Journal)
      requires Agrees(j, job.doc) && j.pc == Claimed(job, snap) && a.claim == Claims
      requires IsClaimed(job, snap, rows)
      requires a.source.Some? ==> FreshGeneration(j.doc, a.source.value.generation)
      modifies this`bm25, this`bytes, store, repo`rows, queue
      ensures Agrees(j', job.doc) && SameStart(j, j')
      ensures outcome == JobOutcome(job, snap.hasKey, job.doc in old(bytes), a)
      ensures Holds(j'.pc) <==> outcome == Abandoned
      ensures Ended(job, a, outcome, rows, old(queue.items), old(store.entries), old(bytes), old(bm25))
    {
      var succeeded;
      succeeded, j' := TryIndex(job, snap, a, rows, j);
      if succeeded { return Succeeded, j'; }
      var written;
      written, j' := HandleFailure(job, snap, snap.hasKey && a.service, a, rows, j');
      outcome := if written then Unsuccessful else Abandoned;
    }

    /** One popped job from claim to the end. Whatever the environment answers, a claimed job is
        a run of the protocol on its document, and no other document is touched. A job abandoned
        after its claim leaves the row indexing for a later restart to find. */
    method ProcessJob(job: Job, a: Answers, ghost doc: Doc) returns (outcome: Outcome, ghost j: Journal)
      requires job.doc in repo.rows ==>
        doc.row == Some(repo.rows[job.doc]) && doc.chunks == ChunksOf(store.entries, job.doc)
        && doc.hasBytes == (job.doc in bytes)
      requires a.source.Some? ==> FreshGeneration(doc, a.source.value.generation)
      modifies this`bm25, this`bytes, store, repo`rows, queue
      ensures outcome ==
        if job.doc !in old(repo.rows) || old(repo.rows)[job.doc].status == Indexing
           || (old(repo.rows)[job.doc].status == Active && job.kind == Upload) then Skipped
        else JobOutcome(job, old(repo.rows)[job.doc].hasKey, job.doc in old(bytes), a)
      ensures outcome != Skipped && a.claim == Claims ==>
        var row := ClaimedRow(old(repo.rows)[job.doc], repo.now);
        && Agrees(j, job.doc) && j.start == Claimed(job, row) && j.startDoc == ClaimedDoc(doc, row)
        && (Holds(j.pc) <==> outcome == Abandoned)
      ensures outcome != Skipped && a.claim != CommitRaises ==>
        Ended(job, a, outcome, old(repo.rows), old(queue.items), old(store.entries), old(bytes), old(bm25))
      ensures outcome == Skipped || a.claim == CommitRaises ==> repo.rows == old(repo.rows)
      ensures outcome == Skipped || a.claim != Claims ==>
        store.entries == old(store.entries) && bytes == old(bytes) && queue.items == old(queue.items)
    {
      var claim := ClaimJob(job, a.claim);
      if !claim.Won? {
        j := Journal(Idle, doc, repo.now, [], Idle, doc);
        return if claim.Lost? then Skipped else Abandoned, j;
      }
      ghost var start := ClaimedDoc(doc, claim.snap);
      j := Journal(Claimed(job, claim.snap), start, repo.now, [], Claimed(job, claim.snap), start);
      outcome, j := RunClaimedJob(job, claim.snap, a, old(repo.rows), j);
    }
  }

  // ---- Back to the whole system ----

  function Steps(w: nat, ls: seq<WorkerLabel>): seq<Label> {
    if ls == [] then [] else [Work(w, ls[0])] + Steps(w, ls[1..])
  }

  /** Worker `w`, its BM25 mirror and document `d` may have moved, and nothing else. */
  predicate OnlyMoves(s: State, s': State, w: nat, d: DocId, pc: Pc, doc: Doc) {
    && w < |s.workers| && s' == s.(workers := s.workers[w := pc], docs := s.docs[d := doc], bm25 := s'.bm25)
    && |s'.bm25| == |s.bm25| && forall v | 0 <= v < |s.bm25| && v != w :: s'.bm25[v] == s.bm25[v]
  }

  lemma OneStepIsWork(s: State, w: nat, d: DocId, l: WorkerLabel)
    requires IsWorker(s, w) && d in s.docs && Holds(s.workers[w]) && s.workers[w].job.doc == d
    requires CanStep(s.workers[w], s.docs[d], l) && !Locked(s, d)
    ensures Enabled(s, Work(w, l)) && Apply(s, Work(w, l)) == ApplyWork(s, w, l)
    ensures OnlyMoves(s, ApplyWork(s, w, l), w, d, NextPc(s.workers[w], l), NextDoc(s.workers[w], s.docs[d], s.now, l))
    ensures Holds(NextPc(s.workers[w], l)) ==> NextPc(s.workers[w], l).job.doc == d
  {
  }

  /** What a worker does on its own document is a run of the whole system, and changes
      nothing but this document, this worker and its own BM25 mirror. */
  lemma {:induction false} LocalRunIsRun(s: State, w: nat, d: DocId, ls: seq<WorkerLabel>)
    requires IsWorker(s, w) && d in s.docs && (Holds(s.workers[w]) ==> s.workers[w].job.doc == d)
    requires IsLocalRun(s.workers[w], s.docs[d], s.now, ls) && !Locked(s, d)
    ensures IsRun(s, Steps(w, ls))
    ensures
      var s' := Final(s, Steps(w, ls));
      var (pc, doc) := LocalEnd(s.workers[w], s.docs[d], s.now, ls);
      OnlyMoves(s, s', w, d, pc, doc)
    decreases |ls|
  {
    if ls == [] {
      assert s.docs[d := s.docs[d]] == s.docs && s.workers[w := s.workers[w]] == s.workers;
    } else {
      var s1 := ApplyWork(s, w, ls[0]);
      OneStepIsWork(s, w, d, ls[0]);
      assert Steps(w, ls)[1..] == Steps(w, ls[1..]);
      LocalRunIsRun(s1, w, d, ls[1..]);
    }
  }
}
