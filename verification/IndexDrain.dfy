/** Draining the queue: attempts are bounded, workers finish, and nothing is left half indexed. */
module IndexDrain {
  import opened Wrappers
  import opened IndexModel
  import opened IndexSafety

  // ---- What is left to do ----

  const STEPS_PER_ATTEMPT := 13

  /** All the worker steps that a queued job can still cause, its retries included. */
  function JobCost(j: Job): nat {
    if j.attempt <= MAX_INDEX_ATTEMPTS
    then (MAX_INDEX_ATTEMPTS + 1 - j.attempt) * STEPS_PER_ATTEMPT
    else STEPS_PER_ATTEMPT
  }

  function Rank(pc: Pc): nat {
    match pc
    case Idle => 0
    case Popped(_) => 12
    case Claimed(_, _) => 11
    case Ready(_, _) => 10
    case Adding(_, _, _, _) => 9
    case Sweeping(_, _, _, _) => 8
    case Refreshing(_, _, _, _) => 7
    case Finalizing(_, _, _) => 6
    case Failing(_, _, _) => 5
    case DroppingChunks(_, _) => 4
    case RefreshingAfterDrop(_, _) => 3
    case DroppingBytes(_, _) => 2
    case Terminal(_, _) => 1
    case Requeueing(_) => 1
  }

  function PcCost(pc: Pc): nat {
    if pc.Idle? then 0
    else if pc.Requeueing? then JobCost(pc.job) + 1
    else JobCost(pc.job) - STEPS_PER_ATTEMPT + Rank(pc)
  }

  function QueueCost(q: seq<Job>): nat {
    if q == [] then 0 else JobCost(q[0]) + QueueCost(q[1..])
  }

  function WorkersCost(ws: seq<Pc>): nat {
    if ws == [] then 0 else PcCost(ws[0]) + WorkersCost(ws[1..])
  }

  function Cost(s: State): nat {
    QueueCost(s.queue) + WorkersCost(s.workers)
  }

  lemma {:induction false} QueueCostLast(q: seq<Job>)
    requires q != []
    ensures QueueCost(q) == QueueCost(q[..|q| - 1]) + JobCost(q[|q| - 1])
  {
    if |q| > 1 {
      QueueCostLast(q[1..]);
      assert q[..|q| - 1][1..] == q[1..][..|q| - 2];
    }
  }

  lemma {:induction false} WorkersCostUpdate(ws: seq<Pc>, w: nat, pc: Pc)
    requires w < |ws|
    ensures WorkersCost(ws[w := pc]) == WorkersCost(ws) - PcCost(ws[w]) + PcCost(pc)
  {
    if w == 0 {
      assert ws[w := pc][1..] == ws[1..];
    } else {
      WorkersCostUpdate(ws[1..], w - 1, pc);
      assert ws[w := pc][1..] == ws[1..][w - 1 := pc];
    }
  }

  /** A step of a worker that neither dies nor loses its retry push. */
  predicate IsWorkerLabel(l: Label) {
    l.Pop? || l.Claim? || l.Work? || l.PushRetry?
  }

  lemma PopCosts(s: State, w: nat)
    requires Enabled(s, Pop(w))
    ensures Cost(Apply(s, Pop(w))) < Cost(s)
  {
    QueueCostLast(s.queue);
    WorkersCostUpdate(s.workers, w, Popped(s.queue[|s.queue| - 1]));
  }

  lemma ClaimCosts(s: State, w: nat)
    requires w < |s.workers| && s.workers[w].Popped?
    ensures Cost(ApplyClaim(s, w, s.workers[w].job)) < Cost(s)
  {
    WorkersCostUpdate(s.workers, w, ApplyClaim(s, w, s.workers[w].job).workers[w]);
  }

  lemma PushRetryCosts(s: State, w: nat)
    requires Enabled(s, PushRetry(w))
    ensures Cost(Apply(s, PushRetry(w))) < Cost(s)
  {
    WorkersCostUpdate(s.workers, w, Idle);
    assert ([s.workers[w].job] + s.queue)[1..] == s.queue;
  }

  /** Every worker step uses up some of the work that is left, failures and retries included. */
  lemma WorkerStepCosts(s: State, l: Label)
    requires Enabled(s, l) && IsWorkerLabel(l)
    ensures Cost(Apply(s, l)) < Cost(s)
  {
    match l {
      case Pop(w) => PopCosts(s, w);
      case Claim(w) => ClaimCosts(s, w);
      case PushRetry(w) => PushRetryCosts(s, w);
      case Work(w, wl) =>
        WorkersCostUpdate(s.workers, w, NextPc(s.workers[w], wl));
        WorkCosts(s.workers[w], s.docs[s.workers[w].job.doc], wl);
    }
  }

  lemma WorkCosts(pc: Pc, doc: Doc, l: WorkerLabel)
    requires Holds(pc) && CanStep(pc, doc, l)
    ensures PcCost(NextPc(pc, l)) < PcCost(pc)
  {
  }

  /** Without new jobs the workers take at most `Cost(s)` steps. */
  lemma {:induction false} DrainingIsBounded(s: State, ls: seq<Label>)
    requires IsRun(s, ls) && forall l <- ls :: IsWorkerLabel(l)
    ensures |ls| + Cost(Final(s, ls)) <= Cost(s)
    decreases |ls|
  {
    if ls != [] {
      WorkerStepCosts(s, ls[0]);
      DrainingIsBounded(Apply(s, ls[0]), ls[1..]);
    }
  }

  /** No job is ever attempted more often than allowed. */
  lemma AttemptsAreBounded(s: State, j: Job)
    requires Reachable(s) && j in s.queue
    ensures INITIAL_INDEX_ATTEMPT <= j.attempt <= MAX_INDEX_ATTEMPTS
  {
    ReachableInv(s);
  }

  // ---- Nobody is forgotten ----

  /** A job for the document is queued, about to be queued, or popped and not yet claimed. */
  ghost predicate JobUnderway(s: State, d: DocId) {
    || (exists j :: j in s.queue && j.doc == d)
    || (exists p :: p in s.outbox && p.job.doc == d)
    || (exists w: nat :: CarriesJob(s, w, d))
  }

  ghost predicate CarriesJob(s: State, w: nat, d: DocId) {
    w < |s.workers| && (s.workers[w].Popped? || s.workers[w].Requeueing?) && s.workers[w].job.doc == d
  }

  ghost predicate Served(s: State) {
    forall d :: HasRow(s, d) ==>
      && (s.docs[d].row.value.status == Pending ==> JobUnderway(s, d))
      && (s.docs[d].row.value.status == Indexing ==> Held(s, d))
  }

  /** No worker dies, and every push succeeds, except that a failed upload removes its document. */
  predicate Clean(l: Label) {
    !l.Abandon? && (l.PushFails? ==> l.p.upload)
  }

  lemma ClaimKeepsServed(s: State, w: nat)
    requires Inv(s) && Served(s) && Enabled(s, Claim(w))
    ensures Served(Apply(s, Claim(w)))
  {
    var s' := Apply(s, Claim(w));
    var job := s.workers[w].job;
    forall d | HasRow(s', d)
      ensures s'.docs[d].row.value.status == Pending ==> JobUnderway(s', d)
      ensures s'.docs[d].row.value.status == Indexing ==> Held(s', d)
    {
      OthersStay(s, s', w, d);
      if d == job.doc && s'.workers[w].Claimed? { assert HoldsDoc(s', w, d); }
    }
  }

  /** When one worker moves and no job leaves the queue or the outbox, the others still carry and hold. */
  lemma OthersStay(s: State, s': State, w: nat, d: DocId)
    requires w < |s.workers| == |s'.workers|
    requires forall v: nat :: v < |s.workers| && v != w ==> s'.workers[v] == s.workers[v]
    requires forall j <- s.queue :: j in s'.queue
    requires s'.outbox == s.outbox
    ensures JobUnderway(s, d) && !CarriesJob(s, w, d) ==> JobUnderway(s', d)
    ensures Held(s, d) && !HoldsDoc(s, w, d) ==> Held(s', d)
  {
    if Held(s, d) && !HoldsDoc(s, w, d) {
      var v: nat :| HoldsDoc(s, v, d);
      assert HoldsDoc(s', v, d);
    }
    if (exists v: nat :: CarriesJob(s, v, d)) && !CarriesJob(s, w, d) {
      var v: nat :| CarriesJob(s, v, d);
      assert CarriesJob(s', v, d);
    }
  }

  /** The worker's own document: the step leaves it indexing and held, retries it, or ends with it. */
  lemma WorkServesOwn(pc: Pc, doc: Doc, now: nat, l: WorkerLabel)
    requires Holds(pc) && HolderOk(pc, doc) && CanStep(pc, doc, l) && NextDoc(pc, doc, now, l).row.Some?
    ensures NextDoc(pc, doc, now, l).row.value.status == Pending ==> l.Retry? && NextPc(pc, l).Requeueing?
    ensures NextDoc(pc, doc, now, l).row.value.status == Indexing ==> Holds(NextPc(pc, l))
    ensures !NextPc(pc, l).Idle? ==> NextPc(pc, l).job.doc == pc.job.doc
  {
  }

  lemma WorkServesDoc(s: State, w: nat, l: WorkerLabel, d: DocId)
    requires Inv(s) && Enabled(s, Work(w, l)) && d == s.workers[w].job.doc && HasRow(ApplyWork(s, w, l), d)
    ensures
      var s' := ApplyWork(s, w, l);
      && (s'.docs[d].row.value.status == Pending ==> JobUnderway(s', d))
      && (s'.docs[d].row.value.status == Indexing ==> Held(s', d))
  {
    var s' := ApplyWork(s, w, l);
    var pc := s.workers[w];
    assert HoldsDoc(s, w, d) && HoldersOk(s, d);
    WorkServesOwn(pc, s.docs[d], s.now, l);
    assert s'.workers[w] == NextPc(pc, l);
    if s'.workers[w].Requeueing? { assert CarriesJob(s', w, d); }
    if Holds(s'.workers[w]) { assert HoldsDoc(s', w, d); }
  }

  lemma WorkKeepsServed(s: State, w: nat, l: WorkerLabel)
    requires Inv(s) && Served(s) && Enabled(s, Work(w, l))
    ensures Served(ApplyWork(s, w, l))
  {
    var s' := ApplyWork(s, w, l);
    forall d | HasRow(s', d)
      ensures s'.docs[d].row.value.status == Pending ==> JobUnderway(s', d)
      ensures s'.docs[d].row.value.status == Indexing ==> Held(s', d)
    {
      if d == s.workers[w].job.doc {
        WorkServesDoc(s, w, l, d);
      } else {
        OthersStay(s, s', w, d);
      }
    }
  }

  lemma QueueStepKeepsServed(s: State, l: Label)
    requires Inv(s) && Served(s) && Enabled(s, l)
    requires l.Pop? || l.PushRetry?
    ensures Served(Apply(s, l))
  {
    var s' := Apply(s, l);
    var w := l.w;
    assert s'.docs == s.docs;
    forall d | HasRow(s', d)
      ensures s'.docs[d].row.value.status == Pending ==> JobUnderway(s', d)
      ensures s'.docs[d].row.value.status == Indexing ==> Held(s', d)
    {
      if Held(s, d) {
        var v: nat :| HoldsDoc(s, v, d);
        assert HoldsDoc(s', v, d);
      }
      if l.Pop? {
        var last := s.queue[|s.queue| - 1];
        if last.doc == d { assert CarriesJob(s', w, d); }
        assert forall j <- s.queue :: j == last || j in s'.queue;
      } else {
        assert s.workers[w].job in s'.queue;
      }
      if v: nat :| CarriesJob(s, v, d) {
        if v != w { assert CarriesJob(s', v, d); }
      }
    }
  }

  /** When no worker moves, the documents that were carried or held still are. */
  lemma SameWorkersStay(s: State, s': State, d: DocId)
    requires s'.workers == s.workers
    requires forall j <- s.queue :: j.doc == d ==> j in s'.queue
    requires forall p <- s.outbox :: p.job.doc == d ==> p in s'.outbox || p.job in s'.queue
    ensures JobUnderway(s, d) ==> JobUnderway(s', d)
    ensures Held(s, d) ==> Held(s', d)
  {
    if v: nat :| CarriesJob(s, v, d) { assert CarriesJob(s', v, d); }
    if v: nat :| HoldsDoc(s, v, d) { assert HoldsDoc(s', v, d); }
  }

  lemma UploadKeepsServed(s: State, d: DocId)
    requires Served(s) && Enabled(s, UploadDocument(d))
    ensures Served(Apply(s, UploadDocument(d)))
  {
    var s' := Apply(s, UploadDocument(d));
    forall e | HasRow(s', e)
      ensures s'.docs[e].row.value.status == Pending ==> JobUnderway(s', e)
      ensures s'.docs[e].row.value.status == Indexing ==> Held(s', e)
    {
      SameWorkersStay(s, s', e);
      assert Producer(Job(d, Upload, INITIAL_INDEX_ATTEMPT), true) in s'.outbox;
    }
  }

  lemma ResetKeepsServed(s: State, o: Selection)
    requires Served(s) && o in s.selected && SafeReset(s, ResetOrphan(o))
    ensures Served(ApplyReset(s, o))
  {
    var s' := ApplyReset(s, o);
    forall e | HasRow(s', e)
      ensures s'.docs[e].row.value.status == Pending ==> JobUnderway(s', e)
      ensures s'.docs[e].row.value.status == Indexing ==> Held(s', e)
    {
      SameWorkersStay(s, s', e);
      if WritesOver(s, o) { assert Producer(Job(o.doc, RequeueKind(o.row), INITIAL_INDEX_ATTEMPT), false) in s'.outbox; }
    }
  }

  lemma PushKeepsServed(s: State, p: Producer)
    requires Served(s) && p in s.outbox
    ensures Served(Apply(s, Push(p)))
  {
    var s' := Apply(s, Push(p));
    assert s'.queue[0] == p.job && forall k :: 0 <= k < |s.queue| ==> s'.queue[k + 1] == s.queue[k];
    forall d | HasRow(s', d)
      ensures s'.docs[d].row.value.status == Pending ==> JobUnderway(s', d)
      ensures s'.docs[d].row.value.status == Indexing ==> Held(s', d)
    {
      SameWorkersStay(s, s', d);
    }
  }

  lemma PushFailsKeepsServed(s: State, p: Producer)
    requires Served(s) && Enabled(s, PushFails(p)) && p.upload
    ensures Served(Apply(s, PushFails(p)))
  {
    var s' := Apply(s, PushFails(p));
    forall d | HasRow(s', d)
      ensures s'.docs[d].row.value.status == Pending ==> JobUnderway(s', d)
      ensures s'.docs[d].row.value.status == Indexing ==> Held(s', d)
    {
      SameWorkersStay(s, s', d);
    }
  }

  /** When no worker moves, no job leaves and every row left is as it was. */
  lemma SameRowsStayServed(s: State, s': State)
    requires Served(s) && s'.workers == s.workers && s'.queue == s.queue && forall p <- s.outbox :: p in s'.outbox
    requires forall d :: HasRow(s', d) ==> HasRow(s, d) && s'.docs[d].row == s.docs[d].row
    ensures Served(s')
  {
    forall d | HasRow(s', d)
      ensures s'.docs[d].row.value.status == Pending ==> JobUnderway(s', d)
      ensures s'.docs[d].row.value.status == Indexing ==> Held(s', d)
    {
      SameWorkersStay(s, s', d);
    }
  }

  lemma DeleteKeepsServed(s: State, l: Label)
    requires Served(s) && Enabled(s, l) && OfDelete(l)
    ensures Served(Apply(s, l))
  {
    SameRowsStayServed(s, Apply(s, l));
  }

  lemma PublishingKeepsServed(s: State, l: Label)
    requires Served(s) && Enabled(s, l) && OfPublication(l)
    ensures Served(Apply(s, l))
  {
    if l.CommitStaged? { CommitKeepsServed(s, l.d, l.g); } else { SameRowsStayServed(s, Apply(s, l)); }
  }

  lemma CommitKeepsServed(s: State, d: DocId, g: nat)
    requires Served(s) && Enabled(s, CommitStaged(d, g))
    ensures Served(Apply(s, CommitStaged(d, g)))
  {
    var s' := Apply(s, CommitStaged(d, g));
    forall e | HasRow(s', e)
      ensures s'.docs[e].row.value.status == Pending ==> JobUnderway(s', e)
      ensures s'.docs[e].row.value.status == Indexing ==> Held(s', e)
    {
      SameWorkersStay(s, s', e);
    }
  }

  lemma RestKeepsServed(s: State, l: Label)
    requires Served(s) && Enabled(s, l)
    requires l.Tick? || l.ReindexDocument? || l.SelectOrphan? || l.ForgetOrphan? || l.SaveIndex? || l.LoadIndex?
    ensures Served(Apply(s, l))
  {
    SameRowsStayServed(s, Apply(s, l));
  }

  lemma WorkerStepKeepsServed(s: State, l: Label)
    requires Inv(s) && Served(s) && Enabled(s, l) && (l.Work? || l.Claim?)
    ensures Served(Apply(s, l))
  {
    if l.Work? { WorkKeepsServed(s, l.w, l.l); } else { ClaimKeepsServed(s, l.w); }
  }

  lemma ProducerKeepsServed(s: State, l: Label)
    requires Inv(s) && Served(s) && Enabled(s, l) && Clean(l) && (l.UploadDocument? || l.Push? || l.PushFails?)
    ensures Served(Apply(s, l))
  {
    if l.UploadDocument? { UploadKeepsServed(s, l.d); }
    else if l.Push? { PushKeepsServed(s, l.p); }
    else { PushFailsKeepsServed(s, l.p); }
  }

  lemma RestartKeepsServed(s: State, l: Label)
    requires Inv(s) && Served(s) && Enabled(s, l) && SafeReset(s, l) && OfRestart(l)
    ensures Served(Apply(s, l))
  {
    if l.ResetOrphan? { ResetKeepsServed(s, l.o); } else { RestKeepsServed(s, l); }
  }

  /** Without crashes and lost pushes, every pending row keeps a job and every indexing row a worker. */
  lemma StepKeepsServed(s: State, l: Label)
    requires Inv(s) && Served(s) && Enabled(s, l) && SafeReset(s, l) && Clean(l)
    ensures Served(Apply(s, l))
  {
    if l.Work? || l.Claim? { WorkerStepKeepsServed(s, l); }
    else if l.Pop? || l.PushRetry? { QueueStepKeepsServed(s, l); }
    else if l.UploadDocument? || l.Push? || l.PushFails? { ProducerKeepsServed(s, l); }
    else if OfRestart(l) { RestartKeepsServed(s, l); }
    else if OfDelete(l) { DeleteKeepsServed(s, l); }
    else if OfPublication(l) { PublishingKeepsServed(s, l); }
    else { RestKeepsServed(s, l); }
  }

  lemma {:induction false} CleanRunKeepsServed(s: State, ls: seq<Label>)
    requires Inv(s) && Served(s) && IsSafeRun(s, ls) && forall l <- ls :: Clean(l)
    ensures IsRun(s, ls) && Inv(Final(s, ls)) && Served(Final(s, ls))
    decreases |ls|
  {
    if ls != [] {
      StepKeepsInv(s, ls[0]);
      StepKeepsServed(s, ls[0]);
      CleanRunKeepsServed(Apply(s, ls[0]), ls[1..]);
    }
  }

  // ---- The queue empties and nothing is left over ----

  /** The worker is about to claim or to write a row that a delete of that very document still holds. */
  predicate Waits(s: State, pc: Pc) {
    (pc.Popped? || pc.Finalizing? || pc.Failing? || pc.Terminal?) && Locked(s, pc.job.doc)
  }

  predicate IsBusy(s: State, w: nat) {
    w < |s.workers| && !s.workers[w].Idle?
  }

  /** No deadlock: as long as a job is queued or a worker is busy, some worker can take a step; or else every
      busy worker waits for a delete of its own document, which can be ended, and none is idle beside a queued job. */
  lemma SomeoneCanStep(s: State)
    requires Inv(s) && s.workers != []
    requires s.queue != [] || exists w: nat :: IsBusy(s, w)
    ensures
      || (exists l :: IsWorkerLabel(l) && Enabled(s, l))
      || (&& (exists w: nat :: IsBusy(s, w))
          && (forall w: nat | IsBusy(s, w) :: Waits(s, s.workers[w]) && Enabled(s, RollbackDelete(s.workers[w].job.doc)))
          && (s.queue != [] ==> forall w: nat | w < |s.workers| :: IsBusy(s, w)))
  {
    if w: nat :| IsBusy(s, w) && !Waits(s, s.workers[w]) {
      WorkerCanStep(s, w);
    } else if w: nat :| s.queue != [] && w < |s.workers| && !IsBusy(s, w) {
      assert Enabled(s, Pop(w));
    } else {
      assert s.queue != [] ==> IsBusy(s, 0);
    }
  }

  lemma WorkerCanStep(s: State, w: nat)
    requires Inv(s) && IsBusy(s, w) && !Waits(s, s.workers[w])
    ensures exists l :: IsWorkerLabel(l) && Enabled(s, l)
  {
    var pc := s.workers[w];
    if pc.Popped? {
      assert Enabled(s, Claim(w));
    } else if pc.Requeueing? {
      assert Enabled(s, PushRetry(w));
    } else {
      assert HoldsDoc(s, w, pc.job.doc) && HoldersOk(s, pc.job.doc);
      assert Enabled(s, Work(w, SomeStep(pc)));
    }
  }

  lemma SomeWorkerCanStep(s: State)
    requires Inv(s) && s.workers != [] && s.deletes == map[]
    requires s.queue != [] || exists w: nat :: IsBusy(s, w)
    ensures exists l :: IsWorkerLabel(l) && Enabled(s, l)
  {
    SomeoneCanStep(s);
  }

  function SomeStep(pc: Pc): WorkerLabel
    requires Holds(pc)
  {
    match pc
    case Adding(_, _, _, _) => Add
    case Sweeping(_, _, _, _) => Sweep
    case Finalizing(_, _, _) => Finalize
    case Failing(_, _, _) => if pc.job.attempt < MAX_INDEX_ATTEMPTS then Retry else GiveUp
    case DroppingChunks(_, _) => DropChunks
    case DroppingBytes(_, _) => DropBytes(true)
    case Terminal(_, _) => MarkTerminal
    case _ => Raise
  }

  lemma WorkerStepKeepsOutbox(s: State, l: Label)
    requires Enabled(s, l) && IsWorkerLabel(l)
    ensures Apply(s, l).outbox == s.outbox && Apply(s, l).deletes == s.deletes
    ensures |Apply(s, l).workers| == |s.workers|
  {
  }

  lemma {:induction false} WorkersKeepOutbox(s: State, ls: seq<Label>)
    requires IsRun(s, ls) && forall l <- ls :: IsWorkerLabel(l)
    ensures Final(s, ls).outbox == s.outbox && Final(s, ls).deletes == s.deletes
    ensures |Final(s, ls).workers| == |s.workers|
    decreases |ls|
  {
    if ls != [] {
      WorkerStepKeepsOutbox(s, ls[0]);
      WorkersKeepOutbox(Apply(s, ls[0]), ls[1..]);
    }
  }

  lemma {:induction false} WorkersRunSafely(s: State, ls: seq<Label>)
    requires IsRun(s, ls) && forall l <- ls :: IsWorkerLabel(l)
    ensures IsSafeRun(s, ls)
    decreases |ls|
  {
    if ls != [] {
      assert IsWorkerLabel(ls[0]) && SafeReset(s, ls[0]);
      WorkersRunSafely(Apply(s, ls[0]), ls[1..]);
    }
  }

  /** Some run without crashes and lost pushes leads to `s`. */
  ghost predicate CleanlyReachable(s: State) {
    exists workers, ls :: IsSafeRunTo(workers, ls, s) && AllClean(ls)
  }

  predicate AllClean(ls: seq<Label>) {
    forall l <- ls :: Clean(l)
  }

  lemma CleanlyReachableServed(s: State)
    requires CleanlyReachable(s)
    ensures Inv(s) && Served(s)
  {
    var workers, ls :| IsSafeRunTo(workers, ls, s) && AllClean(ls);
    InitialInv(workers);
    CleanRunKeepsServed(Initial(workers), ls);
  }

  /** No worker can go on. */
  ghost predicate Stuck(s: State) {
    forall l :: IsWorkerLabel(l) ==> !Enabled(s, l)
  }

  predicate NothingHalfDone(s: State) {
    forall d <- s.docs :: s.docs[d].row.Some? ==> s.docs[d].row.value.status in {Active, Failed}
  }

  /** Once producers and deletes are done, the workers stop after at most `Cost(s)` further steps, and when
      none of them can go on, no document is left pending or indexing. */
  lemma DrainingCompletes(s: State, ls: seq<Label>)
    requires CleanlyReachable(s) && s.outbox == multiset{} && s.deletes == map[] && s.workers != []
    requires IsRun(s, ls) && forall l <- ls :: IsWorkerLabel(l)
    ensures |ls| <= Cost(s)
    ensures Stuck(Final(s, ls)) ==> NothingHalfDone(Final(s, ls))
  {
    CleanlyReachableServed(s);
    DrainingIsBounded(s, ls);
    WorkersKeepOutbox(s, ls);
    WorkersRunSafely(s, ls);
    CleanRunKeepsServed(s, ls);
    if Stuck(Final(s, ls)) {
      StuckMeansDone(Final(s, ls));
    }
  }

  lemma StuckMeansDone(s: State)
    requires Inv(s) && Served(s) && s.workers != [] && s.outbox == multiset{} && s.deletes == map[]
    requires Stuck(s)
    ensures NothingHalfDone(s)
  {
    if s.queue != [] || exists w: nat :: IsBusy(s, w) {
      SomeWorkerCanStep(s);
    }
    forall w: nat | w < |s.workers| ensures s.workers[w].Idle? {
      assert !IsBusy(s, w);
    }
    forall d | d in s.docs && s.docs[d].row.Some? ensures s.docs[d].row.value.status in {Active, Failed} {
      assert !JobUnderway(s, d) && !Held(s, d);
    }
  }

  // ---- The BM25 mirror ----

  /** At some moment of the run a full read of the vector store returns exactly `snapshot`. */
  ghost predicate ReadDuring(s: State, ls: seq<Label>, snapshot: map<DocId, Chunks>)
    requires IsRun(s, ls)
    decreases |ls|
  {
    Contents(s) == snapshot || (ls != [] && ReadDuring(Apply(s, ls[0]), ls[1..], snapshot))
  }

  /** Some process or the saved file holds exactly `snapshot`. */
  predicate IsKnown(s: State, snapshot: map<DocId, Chunks>) {
    s.file == Some(snapshot) || Some(snapshot) in s.bm25
  }

  lemma LoadReadsTheStore(s: State, w: nat, readable: bool, reachable: bool, snapshot: map<DocId, Chunks>)
    requires w < |s.bm25| && IsKnown(ApplyLoad(s, w, readable, reachable), snapshot)
    ensures IsKnown(s, snapshot) || snapshot == Contents(ApplyLoad(s, w, readable, reachable))
  {
    var loaded := if readable && s.file.Some? then s.file else None;
    var s1 := s.(bm25 := s.bm25[w := loaded]);
    if IsKnown(s1, snapshot) && s1.file != Some(snapshot) {
      var v: nat :| v < |s1.bm25| && s1.bm25[v] == Some(snapshot);
      if v != w { assert s.bm25[v] == Some(snapshot); }
    }
  }

  lemma RebuildReadsTheStore(s: State, w: nat, reachable: bool, snapshot: map<DocId, Chunks>)
    requires w < |s.bm25| && IsKnown(RefreshIndex(s, w, reachable), snapshot)
    ensures IsKnown(s, snapshot) || snapshot == Contents(s)
  {
    var s1 := RefreshIndex(s, w, reachable);
    if s1.file != Some(snapshot) {
      var v: nat :| v < |s1.bm25| && s1.bm25[v] == Some(snapshot);
      if v != w { assert s.bm25[v] == Some(snapshot); }
    }
  }

  lemma WorkReadsTheStore(s: State, w: nat, l: WorkerLabel, snapshot: map<DocId, Chunks>)
    requires Enabled(s, Work(w, l)) && IsKnown(ApplyWork(s, w, l), snapshot)
    ensures IsKnown(s, snapshot) || snapshot == Contents(ApplyWork(s, w, l))
  {
    var pc, d := s.workers[w], s.workers[w].job.doc;
    var moved := s.(workers := s.workers[w := NextPc(pc, l)], docs := s.docs[d := NextDoc(pc, s.docs[d], s.now, l)]);
    RebuildReadsTheStore(moved, w, l.Refresh? && l.reachable, snapshot);
  }

  /** The steps that write an index or the saved file. */
  predicate WritesIndex(l: Label) {
    l.Work? || l.RefreshForDelete? || l.RebuildIndex? || l.SaveIndex? || l.LoadIndex?
  }

  lemma IndexesStay(s: State, l: Label)
    requires Enabled(s, l) && !WritesIndex(l)
    ensures Apply(s, l).bm25 == s.bm25 && Apply(s, l).file == s.file
  {
  }

  /** A step brings in no index but a full read of the store. */
  lemma StepReadsTheStore(s: State, l: Label, snapshot: map<DocId, Chunks>)
    requires Enabled(s, l) && IsKnown(Apply(s, l), snapshot)
    ensures IsKnown(s, snapshot) || snapshot == Contents(Apply(s, l))
  {
    if l.Work? {
      WorkReadsTheStore(s, l.w, l.l, snapshot);
    } else if l.RebuildIndex? {
      RebuildReadsTheStore(s, l.w, l.reachable, snapshot);
    } else if l.RefreshForDelete? {
      RebuildReadsTheStore(s.(deletes := s.deletes[l.d := Reported]), l.w, l.reachable, snapshot);
    } else if l.LoadIndex? {
      LoadReadsTheStore(s, l.w, l.readable, l.reachable, snapshot);
    } else if l.SaveIndex? {
      assert s.bm25[l.w] in s.bm25;
    } else if !WritesIndex(l) {
      IndexesStay(s, l);
    }
  }

  lemma {:induction false} SnapshotIsKnownOrRead(s: State, ls: seq<Label>, snapshot: map<DocId, Chunks>)
    requires IsRun(s, ls) && IsKnown(Final(s, ls), snapshot)
    ensures IsKnown(s, snapshot) || ReadDuring(s, ls, snapshot)
    decreases |ls|
  {
    if ls != [] {
      var s1 := Apply(s, ls[0]);
      SnapshotIsKnownOrRead(s1, ls[1..], snapshot);
      if IsKnown(s1, snapshot) { StepReadsTheStore(s, ls[0], snapshot); }
      assert ReadDuring(s1, ls[1..], Contents(s1));
    }
  }

  /** Whatever index a process searches, built by itself or loaded from the file that any process may
      have saved at any time, and the file too: each is the vector store's whole contents at one moment
      of the run, never a mix of two. */
  lemma SnapshotWasTheStore(workers: nat, ls: seq<Label>, snapshot: map<DocId, Chunks>)
    requires IsRun(Initial(workers), ls) && IsKnown(Final(Initial(workers), ls), snapshot)
    ensures ReadDuring(Initial(workers), ls, snapshot)
  {
    SnapshotIsKnownOrRead(Initial(workers), ls, snapshot);
  }

  lemma RefreshReadsTheStore(s: State, w: nat)
    requires Enabled(s, Work(w, Refresh(true)))
    ensures
      var s' := ApplyWork(s, w, Refresh(true));
      w < |s'.bm25| && s'.bm25[w] == Some(Contents(s')) && s'.docs == s.docs
  {
  }

  lemma ExactlyMeansTheTexts(doc: Doc, g: nat, texts: seq<string>)
    requires Cut(doc, g, texts) && Exactly(doc, g)
    ensures doc.chunks != map[] && doc.chunks == map c: Slot | c in Slots(g, texts) :: texts[c.index]
  {
    assert Slot(g, 0) in doc.chunks;
  }

  /** A full read returns every stored chunk under its document, and nothing else. */
  lemma ContentsAreTheChunks(s: State, d: DocId, c: Slot)
    ensures (d in Contents(s) && c in Contents(s)[d]) <==> (d in s.docs && c in s.docs[d].chunks)
    ensures d in Contents(s) && c in Contents(s)[d] ==> Contents(s)[d][c] == s.docs[d].chunks[c]
  {
  }

  /** A starting process searches the saved index if there is one that it can read, otherwise the store's contents if
      it can be read, and otherwise nothing. */
  lemma StartupLoadsOrRebuilds(s: State, w: nat, readable: bool, reachable: bool)
    requires Enabled(s, LoadIndex(w, readable, reachable))
    ensures
      var s' := ApplyLoad(s, w, readable, reachable);
      && s' == s.(bm25 := s'.bm25) && |s'.bm25| == |s.bm25|
      && s'.bm25[w] == (if readable && s.file.Some? then s.file else if reachable then Some(Contents(s)) else None)
      && forall v | 0 <= v < |s.bm25| && v != w :: s'.bm25[v] == s.bm25[v]
  {
  }

  /** After a refresh that reaches the store, the snapshot is the store's contents, and for the
      document just indexed these are exactly the chunks of its new generation. */
  lemma RefreshMirrorsStore(s: State, w: nat)
    requires Reachable(s) && Enabled(s, Work(w, Refresh(true))) && s.workers[w].Refreshing?
    requires Intact(s.docs[s.workers[w].job.doc])
    ensures
      var s' := Apply(s, Work(w, Refresh(true)));
      var pc := s.workers[w];
      && s'.bm25[w] == Some(Contents(s'))
      && pc.job.doc in s'.bm25[w].value
      && s'.bm25[w].value[pc.job.doc] == map c: Slot | c in Slots(pc.generation, pc.texts) :: pc.texts[c.index]
  {
    ReachableInv(s);
    var pc := s.workers[w];
    assert HoldsDoc(s, w, pc.job.doc) && HoldersOk(s, pc.job.doc);
    ExactlyMeansTheTexts(s.docs[pc.job.doc], pc.generation, pc.texts);
    RefreshReadsTheStore(s, w);
  }

  /** The step adds chunks of the document. */
  predicate AddsTo(s: State, l: Label, d: DocId) {
    l.Work? && (l.l.Add? || l.l.AddFails?) && l.w < |s.workers| && !s.workers[l.w].Idle? && s.workers[l.w].job.doc == d
  }

  predicate NobodyAdds(s: State, ls: seq<Label>, d: DocId)
    requires IsRun(s, ls)
    decreases |ls|
  {
    ls == [] || (!AddsTo(s, ls[0], d) && NobodyAdds(Apply(s, ls[0]), ls[1..], d))
  }

  predicate NothingStored(s: State, d: DocId) {
    d in s.docs && s.docs[d].chunks == map[]
  }

  lemma {:induction false} NothingStoredStays(s: State, ls: seq<Label>, d: DocId)
    requires IsRun(s, ls) && NothingStored(s, d) && NobodyAdds(s, ls, d)
    ensures NothingStored(Final(s, ls), d)
    decreases |ls|
  {
    if ls != [] {
      var l := ls[0];
      if !l.Work? && !Empties(l, d) { StepKeepsContents(s, l, d); }
      NothingStoredStays(Apply(s, l), ls[1..], d);
    }
  }

  /** Once a delete has emptied a document, a refresh that reaches the store leaves it out of the index,
      whatever else happens in between, unless a worker adds chunks of that document again. */
  lemma DeletedIsNotMirrored(s: State, ls: seq<Label>, d: DocId, w: nat)
    requires Enabled(s, EmptyForDelete(d)) && IsRun(Apply(s, EmptyForDelete(d)), ls)
    requires NobodyAdds(Apply(s, EmptyForDelete(d)), ls, d)
    requires Enabled(Final(Apply(s, EmptyForDelete(d)), ls), RefreshForDelete(d, w, true))
    ensures
      var s' := Apply(Final(Apply(s, EmptyForDelete(d)), ls), RefreshForDelete(d, w, true));
      s'.bm25[w] == Some(Contents(s')) && d !in s'.bm25[w].value
  {
    NothingStoredStays(Apply(s, EmptyForDelete(d)), ls, d);
  }
}
