/** Runs that show what the indexing protocol does not promise, with the exact conditions. */
module IndexFaults {
  import opened Wrappers
  import opened IndexModel
  import opened IndexSafety

  // ---- Runs in which no worker overruns the limit ----

  /** No worker has held a document beyond the staleness limit. */
  predicate Timely(s: State) {
    forall pc <- s.workers :: Holds(pc) ==>
      pc.snap.startedAt.Some? && s.now <= pc.snap.startedAt.value + STALE_INDEXING_REQUEUE_MINUTES
  }

  ghost predicate TimelyRun(s: State, ls: seq<Label>)
    decreases |ls|
  {
    Timely(s) && (ls == [] || (Enabled(s, ls[0]) && TimelyRun(Apply(s, ls[0]), ls[1..])))
  }

  lemma TimelyMeansNoOverrun(s: State)
    requires Timely(s)
    ensures NoOverrun(s)
  {
    forall w: nat, d: DocId | HoldsDoc(s, w, d)
      ensures s.workers[w].snap.startedAt.Some?
        && s.now <= s.workers[w].snap.startedAt.value + STALE_INDEXING_REQUEUE_MINUTES
    {
      assert s.workers[w] in s.workers;
    }
  }

  /** Only the clock can make a worker late. */
  lemma {:induction false} UntickedRunIsTimely(s: State, ls: seq<Label>)
    requires Timely(s) && IsRun(s, ls) && Unticked(ls)
    ensures TimelyRun(s, ls)
    decreases |ls|
  {
    if ls != [] {
      StaysTimely(s, ls[0]);
      UntickedRunIsTimely(Apply(s, ls[0]), ls[1..]);
    }
  }

  predicate Unticked(ls: seq<Label>) {
    forall l <- ls :: !l.Tick?
  }

  /** The worker that a step moves, if any. */
  function Mover(l: Label): Option<nat> {
    match l
    case Pop(w) => Some(w)
    case Claim(w) => Some(w)
    case Work(w, _) => Some(w)
    case PushRetry(w) => Some(w)
    case Abandon(w) => Some(w)
    case _ => None
  }

  lemma NobodyMoves(s: State, l: Label)
    requires Enabled(s, l) && Mover(l).None?
    ensures Apply(s, l).workers == s.workers
    ensures !l.Tick? ==> Apply(s, l).now == s.now
  {
  }

  lemma StaysTimely(s: State, l: Label)
    requires Timely(s) && Enabled(s, l) && !l.Tick?
    ensures Timely(Apply(s, l))
  {
    if Mover(l).None? { NobodyMoves(s, l); }
  }

  lemma {:induction false} TimelyConcat(s: State, a: seq<Label>, b: seq<Label>)
    requires IsRun(s, a) && TimelyRun(s, a) && TimelyRun(Final(s, a), b)
    ensures TimelyRun(s, a + b)
    decreases |a|
  {
    if a == [] {
      assert a + b == b;
    } else {
      TimelyConcat(Apply(s, a[0]), a[1..], b);
      assert (a + b)[1..] == a[1..] + b;
    }
  }

  ghost predicate LeadsTimely(s: State, s': State) {
    exists ls :: IsRunTo(s, ls, s') && TimelyRun(s, ls)
  }

  /** Some run that the clock does not interrupt leads from `s` to `s'`. */
  ghost predicate LeadsAtOnce(s: State, s': State) {
    exists ls :: IsRunTo(s, ls, s') && Unticked(ls)
  }

  lemma AtOnceTransitive(s: State, s1: State, s2: State)
    requires LeadsAtOnce(s, s1) && LeadsAtOnce(s1, s2)
    ensures LeadsAtOnce(s, s2)
  {
    var a :| IsRunTo(s, a, s1) && Unticked(a);
    var b :| IsRunTo(s1, b, s2) && Unticked(b);
    RunOfConcat(s, a, b);
    assert IsRunTo(s, a + b, s2) && Unticked(a + b);
  }

  lemma AtOnceStart(s: State) returns (s': State)
    ensures s' == s && LeadsAtOnce(s, s')
  {
    s' := s;
    assert IsRunTo(s, [], s) && Unticked([]);
  }

  lemma AtOnceOnward(s: State, s1: State, l: Label) returns (s2: State)
    requires LeadsAtOnce(s, s1) && Enabled(s1, l) && !l.Tick?
    ensures s2 == Apply(s1, l) && LeadsAtOnce(s, s2)
  {
    s2 := Apply(s1, l);
    var ls :| IsRunTo(s, ls, s1) && Unticked(ls);
    Extend(s, ls, l);
    assert IsRunTo(s, ls + [l], s2) && Unticked(ls + [l]);
  }

  /** Worker `w` takes a step on document 0, the only one, that brings in no index. */
  lemma AtOnceWorks(s: State, s1: State, w: nat, l: WorkerLabel) returns (s2: State)
    requires LeadsAtOnce(s, s1) && IsWorker(s1, w) && s1.docs.Keys == {0} && s1.deletes == map[]
    requires Holds(s1.workers[w]) && s1.workers[w].job.doc == 0 && CanStep(s1.workers[w], s1.docs[0], l)
    requires l.Refresh? ==> !l.reachable
    ensures LeadsAtOnce(s, s2)
    ensures s2 == s1.(workers := s1.workers[w := NextPc(s1.workers[w], l)],
                      docs := map[0 := NextDoc(s1.workers[w], s1.docs[0], s1.now, l)])
  {
    s2 := AtOnceOnward(s, s1, Work(w, l));
    assert s2.docs == map[0 := NextDoc(s1.workers[w], s1.docs[0], s1.now, l)];
  }

  /** Worker `w` takes the only queued job, which is for document 0, and claims it. */
  lemma AtOnceClaims(s: State, s1: State, w: nat) returns (s2: State)
    requires LeadsAtOnce(s, s1) && IsWorker(s1, w) && s1.workers[w].Idle? && s1.deletes == map[]
    requires |s1.queue| == 1 && s1.queue[0].doc == 0 && s1.queue[0].kind == Upload
    requires s1.docs.Keys == {0} && HasRow(s1, 0) && s1.docs[0].row.value.status == Pending
    ensures LeadsAtOnce(s, s2)
    ensures
      var row := ClaimedRow(s1.docs[0].row.value, s1.now);
      s2 == s1.(queue := [], workers := s1.workers[w := Claimed(s1.queue[0], row)],
                docs := map[0 := ClaimedDoc(s1.docs[0], row)])
  {
    var popped := AtOnceOnward(s, s1, Pop(w));
    assert popped.queue == [] && popped.workers == s1.workers[w := Popped(s1.queue[0])];
    s2 := AtOnceOnward(s, popped, Claim(w));
    var row := ClaimedRow(s1.docs[0].row.value, s1.now);
    assert s2.workers == s1.workers[w := Claimed(s1.queue[0], row)];
    assert s2.docs == map[0 := ClaimedDoc(s1.docs[0], row)];
  }

  /** A restart writes the row of document 0 that it has selected for a first index, and its job arrives. */
  lemma AtOnceResets(s: State, s1: State) returns (s2: State)
    requires LeadsAtOnce(s, s1) && SNAPSHOT in s1.selected && s1.deletes == map[]
    requires HasRow(s1, 0) && s1.outbox == multiset{} && s1.queue == []
    ensures LeadsAtOnce(s, s2)
    ensures
      var row := s1.docs[0].row.value.(status := Pending, startedAt := None);
      s2 == s1.(selected := s1.selected - multiset{SNAPSHOT}, queue := [FIRST_JOB],
                docs := s1.docs[0 := s1.docs[0].(row := Some(row))])
  {
    var written := AtOnceOnward(s, s1, ResetOrphan(SNAPSHOT));
    assert written.outbox == multiset{Producer(FIRST_JOB, false)};
    s2 := AtOnceOnward(s, written, Push(Producer(FIRST_JOB, false)));
    assert s2.outbox == multiset{} && s2.queue == [FIRST_JOB];
  }

  lemma TimelyTransitive(s: State, s1: State, s2: State)
    requires LeadsTimely(s, s1) && LeadsTimely(s1, s2)
    ensures LeadsTimely(s, s2)
  {
    var a :| IsRunTo(s, a, s1) && TimelyRun(s, a);
    var b :| IsRunTo(s1, b, s2) && TimelyRun(s1, b);
    RunOfConcat(s, a, b);
    TimelyConcat(s, a, b);
    assert IsRunTo(s, a + b, s2) && TimelyRun(s, a + b);
  }

  lemma AtOnceIsTimely(s: State, s': State)
    requires LeadsAtOnce(s, s') && Timely(s)
    ensures LeadsTimely(s, s')
  {
    var ls :| IsRunTo(s, ls, s') && Unticked(ls);
    UntickedRunIsTimely(s, ls);
  }

  lemma AtOnceLeads(s: State, s1: State, s2: State)
    requires LeadsTo(s, s1) && LeadsAtOnce(s1, s2)
    ensures LeadsTo(s, s2)
  {
    var a :| IsRunTo(s, a, s1);
    var b :| IsRunTo(s1, b, s2) && Unticked(b);
    RunOfConcat(s, a, b);
    assert IsRunTo(s, a + b, s2);
  }

  // ---- Two workers on one document ----

  const FIRST_JOB := Job(0, Upload, 1)

  const SNAPSHOT := Selection(0, Snap(0))

  /** The row as claimed at minute `t`. */
  function Snap(t: nat): Row {
    Row(Indexing, 0, None, Some(t), true)
  }

  /** Document 0 is pending and its job queued; `selected` restarts have selected its row at an earlier claim. */
  function Queued(t: nat, selected: multiset<Selection>): State {
    State(t, map[0 := NEW_DOC], [FIRST_JOB], multiset{}, selected, map[], [Idle, Idle], [None, None], None)
  }

  /** One worker, having claimed at minute `t`, is about to add the only chunk of document 0. */
  function OneAdding(t: nat, selected: multiset<Selection>): State {
    State(t, map[0 := Doc(Some(Snap(t)), map[], true, map[1 := ["a"]], false, false)], [], multiset{}, selected, map[],
          [Adding(FIRST_JOB, Snap(t), 1, ["a"]), Idle], [None, None], None)
  }

  /** At minute 31 a restart has put the row back to pending under that worker. */
  function Reset(t: nat): State {
    OneAdding(t, multiset{}).(
      now := 31, queue := [FIRST_JOB],
      docs := map[0 := Doc(Some(Row(Pending, 0, None, None, true)), map[], true, map[1 := ["a"]], false, false)])
  }

  /** A second worker has claimed the row. */
  function BothAdding(t: nat): State {
    State(31, map[0 := Doc(Some(Snap(31)), map[], true, map[1 := ["a"], 2 := ["b"]], false, false)], [], multiset{},
          multiset{}, map[],
          [Adding(FIRST_JOB, Snap(t), 1, ["a"]), Adding(FIRST_JOB, Snap(31), 2, ["b"])], [None, None], None)
  }

  /** Both new generations are stored, both workers are about to sweep all but their own. */
  function BothSweeping(t: nat): State {
    BothAdding(t).(
      docs := map[0 := BothAdding(t).docs[0].(chunks := map[Slot(1, 0) := "a", Slot(2, 0) := "b"])],
      workers := [Sweeping(FIRST_JOB, Snap(t), 1, ["a"]), Sweeping(FIRST_JOB, Snap(31), 2, ["b"])])
  }

  function NothingLeft(t: nat): State {
    BothAdding(t).(
      docs := map[0 := BothAdding(t).docs[0].(chunks := map[])],
      workers := [Refreshing(FIRST_JOB, Snap(t), 1, ["a"]), Refreshing(FIRST_JOB, Snap(31), 2, ["b"])])
  }

  lemma FirstUpload()
    ensures LeadsAtOnce(Initial(2), Queued(0, multiset{}))
  {
    var s := Initial(2);
    assert s.workers == [Idle, Idle] && s.bm25 == [None, None];
    var s1 := AtOnceStart(s);
    s1 := AtOnceOnward(s, s1, UploadDocument(0));
    s1 := AtOnceOnward(s, s1, Push(Producer(FIRST_JOB, true)));
    assert s1.outbox == multiset{};
    assert s1 == Queued(0, multiset{});
  }

  lemma FirstWorkerClaims(t: nat, selected: multiset<Selection>)
    ensures LeadsAtOnce(Queued(t, selected), OneAdding(t, selected))
  {
    var s := Queued(t, selected);
    var s1 := AtOnceStart(s);
    s1 := AtOnceClaims(s, s1, 0);
    s1 := AtOnceWorks(s, s1, 0, Build);
    s1 := AtOnceWorks(s, s1, 0, Load(1, ["a"]));
    assert s1.docs == OneAdding(t, selected).docs && s1.workers == OneAdding(t, selected).workers;
    assert s1 == OneAdding(t, selected);
  }

  /** After the clock and a restart elsewhere: the row is pending again and its job queued. */
  lemma StaleRowIsReset()
    ensures LeadsTo(OneAdding(0, multiset{}), Reset(0))
  {
    var s := OneAdding(0, multiset{});
    var ls: seq<Label> := [];
    Extend(s, ls, Tick(31));
    ls := ls + [Tick(31)];
    Extend(s, ls, SelectOrphan(0));
    ls := ls + [SelectOrphan(0)];
    assert Final(s, ls).selected == multiset{SNAPSHOT};
    Extend(s, ls, ResetOrphan(SNAPSHOT));
    ls := ls + [ResetOrphan(SNAPSHOT)];
    assert Final(s, ls).docs == Reset(0).docs && Final(s, ls).selected == multiset{};
    Extend(s, ls, Push(Producer(FIRST_JOB, false)));
    ls := ls + [Push(Producer(FIRST_JOB, false))];
    assert Final(s, ls).outbox == multiset{};
    assert IsRunTo(s, ls, Reset(0));
  }

  lemma SecondWorkerClaims(t: nat)
    ensures LeadsAtOnce(Reset(t), BothAdding(t))
  {
    var s := Reset(t);
    var s1 := AtOnceStart(s);
    s1 := AtOnceClaims(s, s1, 1);
    s1 := AtOnceWorks(s, s1, 1, Build);
    assert s1.workers == [Adding(FIRST_JOB, Snap(t), 1, ["a"]), Ready(FIRST_JOB, Snap(31))];
    s1 := AtOnceWorks(s, s1, 1, Load(2, ["b"]));
    assert s1.docs[0] == BothAdding(t).docs[0];
    assert s1.docs == BothAdding(t).docs && s1.workers == BothAdding(t).workers;
    assert s1 == BothAdding(t);
  }

  lemma AddsOneChunk(chunks: Chunks, g: nat, text: string)
    ensures WithChunks(chunks, g, [text], Slots(g, [text])) == chunks[Slot(g, 0) := text]
  {
    assert Slots(g, [text]) == {Slot(g, 0)};
  }

  lemma SweepKeepsOneChunk(chunks: Chunks, g: nat, text: string)
    ensures Swept(chunks, g, [text]) == if Slot(g, 0) in chunks then map[Slot(g, 0) := chunks[Slot(g, 0)]] else map[]
  {
    assert Slots(g, [text]) == {Slot(g, 0)};
  }

  lemma BothAdd(t: nat)
    ensures LeadsAtOnce(BothAdding(t), BothSweeping(t))
  {
    var s := BothAdding(t);
    AddsOneChunk(map[], 1, "a");
    AddsOneChunk(map[Slot(1, 0) := "a"], 2, "b");
    var s1 := AtOnceStart(s);
    s1 := AtOnceWorks(s, s1, 0, Add);
    s1 := AtOnceWorks(s, s1, 1, Add);
    assert s1.docs[0].chunks == BothSweeping(t).docs[0].chunks;
    assert s1.docs == BothSweeping(t).docs && s1.workers == BothSweeping(t).workers;
    assert s1 == BothSweeping(t);
  }

  lemma BothSweep(t: nat)
    ensures LeadsAtOnce(BothSweeping(t), NothingLeft(t))
  {
    var s := BothSweeping(t);
    SweepKeepsOneChunk(s.docs[0].chunks, 1, "a");
    SweepKeepsOneChunk(map[Slot(1, 0) := "a"], 2, "b");
    var s1 := AtOnceStart(s);
    s1 := AtOnceWorks(s, s1, 0, Sweep);
    s1 := AtOnceWorks(s, s1, 1, Sweep);
    assert s1.docs == NothingLeft(t).docs && s1.workers == NothingLeft(t).workers;
    assert s1 == NothingLeft(t);
  }

  /** The document is active and published and counts one chunk, and the store has none of it. */
  predicate LostAllChunks(s: State) {
    && HasRow(s, 0)
    && s.docs[0].row.value.status == Active
    && s.docs[0].row.value.chunkCount == 1
    && s.docs[0].chunks == map[]
  }

  lemma FirstFinalizes(t: nat) returns (s': State)
    ensures LeadsAtOnce(NothingLeft(t), s') && LostAllChunks(s') && s'.docs[0].published
  {
    var s := NothingLeft(t);
    var s1 := AtOnceStart(s);
    s1 := AtOnceWorks(s, s1, 0, Refresh(false));
    s1 := AtOnceWorks(s, s1, 0, Finalize);
    s' := s1;
  }

  /** Two workers on one document, and the run add, add, sweep, sweep. */
  lemma TwoWorkersLoseAllChunks(t: nat) returns (s: State)
    ensures LeadsAtOnce(Reset(t), s) && LostAllChunks(s) && s.docs[0].published
  {
    SecondWorkerClaims(t);
    BothAdd(t);
    AtOnceTransitive(Reset(t), BothAdding(t), BothSweeping(t));
    BothSweep(t);
    AtOnceTransitive(Reset(t), BothSweeping(t), NothingLeft(t));
    s := FirstFinalizes(t);
    AtOnceTransitive(Reset(t), NothingLeft(t), s);
  }

  /** When a worker overruns the staleness limit, a restart elsewhere can reset its row, and then two
      workers leave an active, published document with no chunk at all. */
  lemma OverrunLosesAllChunks() returns (s: State)
    ensures LeadsTo(Initial(2), s) && LostAllChunks(s) && s.docs[0].published
  {
    FirstUpload();
    FirstWorkerClaims(0, multiset{});
    AtOnceTransitive(Initial(2), Queued(0, multiset{}), OneAdding(0, multiset{}));
    StaleRowIsReset();
    LeadsToTransitive(Initial(2), OneAdding(0, multiset{}), Reset(0));
    s := TwoWorkersLoseAllChunks(0);
    AtOnceLeads(Initial(2), Reset(0), s);
  }

  lemma LeadsToTransitive(s: State, s1: State, s2: State)
    requires LeadsAtOnce(s, s1) && LeadsTo(s1, s2)
    ensures LeadsTo(s, s2)
  {
    var a :| IsRunTo(s, a, s1) && Unticked(a);
    var b :| IsRunTo(s1, b, s2);
    RunOfConcat(s, a, b);
    assert IsRunTo(s, a + b, s2);
  }

  // ---- The late write of a second restart ----

  /** The worker has died right after its claim. */
  const ORPHANED := Queued(0, multiset{}).(
    queue := [], docs := map[0 := NEW_DOC.(row := Some(Snap(0)))])

  lemma WorkerDies()
    ensures LeadsAtOnce(Queued(0, multiset{}), ORPHANED)
  {
    var s := Queued(0, multiset{});
    var s1 := AtOnceStart(s);
    s1 := AtOnceClaims(s, s1, 0);
    s1 := AtOnceOnward(s, s1, Abandon(0));
    assert s1.docs == ORPHANED.docs && s1.workers == ORPHANED.workers;
    assert s1 == ORPHANED;
  }

  lemma TimePasses()
    ensures LeadsTimely(ORPHANED, ORPHANED.(now := 31))
  {
    var s := ORPHANED;
    var ls := [Tick(31)];
    assert ls[1..] == [] && Timely(s) && Timely(Apply(s, Tick(31)));
    assert IsRunTo(s, ls, s.(now := 31)) && TimelyRun(s, ls);
  }

  const SELECTED_TWICE := ORPHANED.(now := 31, selected := multiset{SNAPSHOT, SNAPSHOT})

  lemma RestartsSelect()
    ensures LeadsAtOnce(ORPHANED.(now := 31), SELECTED_TWICE)
  {
    var s := ORPHANED.(now := 31);
    var s1 := AtOnceStart(s);
    s1 := AtOnceOnward(s, s1, SelectOrphan(0));
    assert s1 == s.(selected := multiset{SNAPSHOT});
    s1 := AtOnceOnward(s, s1, SelectOrphan(0));
    assert s1.selected == multiset{SNAPSHOT, SNAPSHOT};
  }

  /** Two processes restart and select the dead worker's row; the first of them resets it. */
  lemma TwoRestartsSelect()
    ensures LeadsAtOnce(ORPHANED.(now := 31), Queued(31, multiset{SNAPSHOT}))
  {
    RestartsSelect();
    var s1 := AtOnceResets(ORPHANED.(now := 31), SELECTED_TWICE);
    assert s1.docs == map[0 := NEW_DOC] && s1.selected == multiset{SNAPSHOT};
    assert s1 == Queued(31, multiset{SNAPSHOT});
  }

  /** The second restart writes after a live worker has claimed. */
  lemma SecondRestartWrites()
    ensures LeadsAtOnce(OneAdding(31, multiset{SNAPSHOT}), Reset(31))
  {
    var s := OneAdding(31, multiset{SNAPSHOT});
    var s1 := AtOnceStart(s);
    s1 := AtOnceResets(s, s1);
    assert s1.docs == Reset(31).docs && s1.selected == multiset{};
    assert s1 == Reset(31);
  }

  /** A live worker has claimed the row that one restart has reset and another has still selected. */
  lemma RestartRaces()
    ensures LeadsTimely(Initial(2), OneAdding(31, multiset{SNAPSHOT}))
  {
    FirstUpload();
    WorkerDies();
    AtOnceTransitive(Initial(2), Queued(0, multiset{}), ORPHANED);
    AtOnceIsTimely(Initial(2), ORPHANED);
    TimePasses();
    TimelyTransitive(Initial(2), ORPHANED, ORPHANED.(now := 31));
    TwoRestartsSelect();
    FirstWorkerClaims(31, multiset{SNAPSHOT});
    AtOnceTransitive(ORPHANED.(now := 31), Queued(31, multiset{SNAPSHOT}), OneAdding(31, multiset{SNAPSHOT}));
    AtOnceIsTimely(ORPHANED.(now := 31), OneAdding(31, multiset{SNAPSHOT}));
    TimelyTransitive(Initial(2), ORPHANED.(now := 31), OneAdding(31, multiset{SNAPSHOT}));
  }

  /** No overrun is needed: two processes that restart at the same time can do it to a live worker
      that is well inside the limit. */
  lemma LateResetLosesAllChunks() returns (s: State)
    ensures LeadsTimely(Initial(2), s) && LostAllChunks(s) && s.docs[0].published
  {
    var raced := OneAdding(31, multiset{SNAPSHOT});
    RestartRaces();
    SecondRestartWrites();
    s := TwoWorkersLoseAllChunks(31);
    AtOnceTransitive(raced, Reset(31), s);
    AtOnceIsTimely(raced, s);
    TimelyTransitive(Initial(2), raced, s);
  }

  /** The first worker has indexed the document at minute `t`. */
  function IndexedDoc(t: nat): Doc {
    Doc(Some(Row(Active, 1, Some(t), None, true)), map[Slot(1, 0) := "a"], true, map[1 := ["a"]], true, false)
  }

  function Indexed(t: nat, selected: multiset<Selection>): State {
    OneAdding(t, selected).(docs := map[0 := IndexedDoc(t)], workers := [Idle, Idle])
  }

  function OneRefreshing(t: nat, selected: multiset<Selection>): State {
    OneAdding(t, selected).(
      docs := map[0 := Doc(Some(Snap(t)), map[Slot(1, 0) := "a"], true, map[1 := ["a"]], false, false)],
      workers := [Refreshing(FIRST_JOB, Snap(t), 1, ["a"]), Idle])
  }

  lemma FirstWorkerStores(t: nat, selected: multiset<Selection>)
    ensures LeadsAtOnce(OneAdding(t, selected), OneRefreshing(t, selected))
  {
    var s := OneAdding(t, selected);
    AddsOneChunk(map[], 1, "a");
    SweepKeepsOneChunk(map[Slot(1, 0) := "a"], 1, "a");
    var s1 := AtOnceStart(s);
    s1 := AtOnceWorks(s, s1, 0, Add);
    s1 := AtOnceWorks(s, s1, 0, Sweep);
    assert s1.docs == OneRefreshing(t, selected).docs && s1.workers == OneRefreshing(t, selected).workers;
    assert s1 == OneRefreshing(t, selected);
  }

  lemma FirstWorkerIndexes(t: nat, selected: multiset<Selection>)
    ensures LeadsAtOnce(OneAdding(t, selected), Indexed(t, selected))
  {
    FirstWorkerStores(t, selected);
    var s := OneAdding(t, selected);
    var s1 := OneRefreshing(t, selected);
    s1 := AtOnceWorks(s, s1, 0, Refresh(false));
    s1 := AtOnceWorks(s, s1, 0, Finalize);
    assert s1.docs == Indexed(t, selected).docs && s1.workers == Indexed(t, selected).workers;
    assert s1 == Indexed(t, selected);
  }

  /** An upload job for the document with the given attempt has claimed the row although it was indexed. */
  function Reclaimed(attempt: nat): State {
    Indexed(31, multiset{}).(
      docs := map[0 := IndexedDoc(31).(row := Some(Row(Indexing, 1, Some(31), Some(31), true)))],
      workers := [Claimed(Job(0, Upload, attempt), Row(Indexing, 1, Some(31), Some(31), true)), Idle])
  }

  lemma IndexedIsReclaimed()
    ensures LeadsAtOnce(Indexed(31, multiset{SNAPSHOT}), Reclaimed(1))
  {
    var s := Indexed(31, multiset{SNAPSHOT});
    var s1 := AtOnceStart(s);
    s1 := AtOnceResets(s, s1);
    assert s1.selected == multiset{};
    s1 := AtOnceClaims(s, s1, 0);
    assert s1.docs == Reclaimed(1).docs && s1.workers == Reclaimed(1).workers;
    assert s1 == Reclaimed(1);
  }

  /** The attempt has failed and its row is pending again. */
  function Rejected(attempt: nat): State {
    Reclaimed(attempt).(
      docs := map[0 := IndexedDoc(31).(row := Some(Row(Pending, 1, Some(31), None, true)))],
      workers := [Requeueing(Job(0, Upload, attempt + 1)), Idle])
  }

  lemma AttemptIsRejected(attempt: nat)
    requires 1 <= attempt < MAX_INDEX_ATTEMPTS
    ensures LeadsAtOnce(Reclaimed(attempt), Rejected(attempt))
  {
    var s := Reclaimed(attempt);
    var s1 := AtOnceStart(s);
    var job, row := Job(0, Upload, attempt), Row(Indexing, 1, Some(31), Some(31), true);
    s1 := AtOnceWorks(s, s1, 0, Raise);
    assert s1.workers == [Failing(job, row, false), Idle] && s1.docs[0] == s.docs[0];
    s1 := AtOnceWorks(s, s1, 0, Retry);
    assert RetryRow(job, row, row, 31) == Row(Pending, 1, Some(31), None, true);
    assert s1.docs[0] == Rejected(attempt).docs[0] && s1.workers[0] == Rejected(attempt).workers[0];
    assert s1.docs == Rejected(attempt).docs && s1.workers == Rejected(attempt).workers;
    assert s1 == Rejected(attempt);
  }

  lemma AttemptFails(attempt: nat)
    requires 1 <= attempt < MAX_INDEX_ATTEMPTS
    ensures LeadsAtOnce(Reclaimed(attempt), Reclaimed(attempt + 1))
  {
    AttemptIsRejected(attempt);
    var s := Reclaimed(attempt);
    var s1 := Rejected(attempt);
    s1 := AtOnceOnward(s, s1, PushRetry(0));
    s1 := AtOnceClaims(s, s1, 0);
    assert s1.docs == Reclaimed(attempt + 1).docs && s1.workers == Reclaimed(attempt + 1).workers;
    assert s1 == Reclaimed(attempt + 1);
  }

  /** After the last attempt the cleanup of a failed first upload begins. */
  const CLEANING :=
    Reclaimed(MAX_INDEX_ATTEMPTS).(
      workers := [DroppingChunks(Job(0, Upload, MAX_INDEX_ATTEMPTS), Row(Indexing, 1, Some(31), Some(31), true)), Idle])

  lemma LastAttemptFails()
    ensures LeadsAtOnce(Reclaimed(MAX_INDEX_ATTEMPTS), CLEANING)
  {
    var s := Reclaimed(MAX_INDEX_ATTEMPTS);
    var s1 := AtOnceStart(s);
    s1 := AtOnceWorks(s, s1, 0, Build);
    s1 := AtOnceWorks(s, s1, 0, Raise);
    s1 := AtOnceWorks(s, s1, 0, GiveUp);
    assert s1.docs == CLEANING.docs && s1.workers == CLEANING.workers;
    assert s1 == CLEANING;
  }

  /** The document was indexed before; now it has failed and neither chunks nor bytes are left. */
  predicate LostEverything(s: State) {
    && HasRow(s, 0)
    && s.docs[0].row.value.status == Failed
    && s.docs[0].row.value.indexedAt.Some?
    && s.docs[0].chunks == map[]
    && !s.docs[0].hasBytes
  }

  const CLEANED :=
    CLEANING.(
      docs := map[0 := Reclaimed(MAX_INDEX_ATTEMPTS).docs[0].(chunks := map[])],
      workers := [DroppingBytes(Job(0, Upload, MAX_INDEX_ATTEMPTS), Row(Indexing, 1, Some(31), Some(31), true)), Idle])

  lemma CleanupDropsChunks()
    ensures LeadsAtOnce(CLEANING, CLEANED)
  {
    var s1 := AtOnceStart(CLEANING);
    s1 := AtOnceWorks(CLEANING, s1, 0, DropChunks);
    s1 := AtOnceWorks(CLEANING, s1, 0, Raise);
    assert s1.docs == CLEANED.docs && s1.workers == CLEANED.workers;
    assert s1 == CLEANED;
  }

  lemma CleanupDropsAll() returns (s': State)
    ensures LeadsAtOnce(CLEANING, s') && LostEverything(s')
  {
    CleanupDropsChunks();
    s' := AtOnceWorks(CLEANING, CLEANED, 0, DropBytes(true));
    s' := AtOnceWorks(CLEANING, s', 0, MarkTerminal);
  }

  lemma AttemptsRunOut() returns (s: State)
    ensures LeadsAtOnce(Reclaimed(1), s) && LostEverything(s)
  {
    AttemptFails(1);
    AttemptFails(2);
    AtOnceTransitive(Reclaimed(1), Reclaimed(2), Reclaimed(3));
    LastAttemptFails();
    AtOnceTransitive(Reclaimed(1), Reclaimed(3), CLEANING);
    s := CleanupDropsAll();
    AtOnceTransitive(Reclaimed(1), CLEANING, s);
  }

  lemma IndexedRowIsReclaimed()
    ensures LeadsTimely(Initial(2), Reclaimed(1))
  {
    var raced := OneAdding(31, multiset{SNAPSHOT});
    RestartRaces();
    FirstWorkerIndexes(31, multiset{SNAPSHOT});
    IndexedIsReclaimed();
    AtOnceTransitive(raced, Indexed(31, multiset{SNAPSHOT}), Reclaimed(1));
    AtOnceIsTimely(raced, Reclaimed(1));
    TimelyTransitive(Initial(2), raced, Reclaimed(1));
  }

  /** The same late write can also hit a row that the live worker has indexed meanwhile: the upload job then
      claims the indexed document, and when its attempts fail, the cleanup drops its chunks and its bytes. */
  lemma LateResetDropsIndexed() returns (s: State)
    ensures LeadsTimely(Initial(2), Reclaimed(1)) && LeadsTimely(Initial(2), s) && LostEverything(s)
  {
    IndexedRowIsReclaimed();
    s := AttemptsRunOut();
    assert Timely(Reclaimed(1));
    AtOnceIsTimely(Reclaimed(1), s);
    TimelyTransitive(Initial(2), Reclaimed(1), s);
  }

  // ---- A delete that is rolled back ----

  /** The delete has taken the chunks out of the store and is about to report that. */
  const EMPTIED :=
    Indexed(0, multiset{}).(docs := map[0 := EmptiedDoc(IndexedDoc(0), {Slot(1, 0)})], deletes := map[0 := Emptied])

  lemma DeleteEmpties()
    ensures LeadsAtOnce(Indexed(0, multiset{}), EMPTIED)
  {
    var s := Indexed(0, multiset{});
    var s1 := AtOnceStart(s);
    s1 := AtOnceOnward(s, s1, BeginDelete(0));
    s1 := AtOnceOnward(s, s1, EmptyForDelete(0));
    assert s.docs[0].chunks.Keys == {Slot(1, 0)};
    assert s1.docs == EMPTIED.docs && s1.deletes == EMPTIED.deletes;
  }

  lemma DeleteIsRolledBack() returns (s': State)
    ensures LeadsAtOnce(Indexed(0, multiset{}), s') && LostAllChunks(s') && s'.deletes == map[]
    ensures forall w: nat, d: DocId :: !HoldsDoc(s', w, d)
  {
    DeleteEmpties();
    var s1 := AtOnceOnward(Indexed(0, multiset{}), EMPTIED, RefreshForDelete(0, 0, true));
    assert s1.docs == EMPTIED.docs && s1.workers == EMPTIED.workers && s1.deletes == map[0 := Reported];
    s' := AtOnceOnward(Indexed(0, multiset{}), s1, RollbackDelete(0));
    assert s'.docs[0].chunks == map[] && s'.deletes == map[];
    assert s'.workers == [Idle, Idle];
  }

  /** A delete whose transaction fails after the chunks are gone leaves an active document that counts one
      chunk and has none, with nobody at work on it. */
  lemma DeleteRollbackLosesAllChunks() returns (s: State)
    ensures LeadsTimely(Initial(2), s) && LostAllChunks(s)
    ensures s.deletes == map[] && forall w: nat, d: DocId :: !HoldsDoc(s, w, d)
  {
    FirstUpload();
    FirstWorkerClaims(0, multiset{});
    AtOnceTransitive(Initial(2), Queued(0, multiset{}), OneAdding(0, multiset{}));
    FirstWorkerIndexes(0, multiset{});
    AtOnceTransitive(Initial(2), OneAdding(0, multiset{}), Indexed(0, multiset{}));
    s := DeleteIsRolledBack();
    AtOnceTransitive(Initial(2), Indexed(0, multiset{}), s);
    AtOnceIsTimely(Initial(2), s);
  }

  // ---- What an unsafe write of a restart leads to ----

  /** A row that was ever indexed is active or being indexed. */
  predicate IndexedRowsStayUp(s: State) {
    forall d <- s.docs :: s.docs[d].row.Some? && s.docs[d].row.value.indexedAt.Some? ==>
      s.docs[d].row.value.status in {Active, Indexing}
  }

  /** Every later state of every safe run has one worker a document at most, and no indexed row that is
      pending or failed. */
  ghost predicate AlwaysKeeps(s: State) {
    forall ls :: IsSafeRun(s, ls) && IsRun(s, ls) ==> Exclusive(Final(s, ls)) && IndexedRowsStayUp(Final(s, ls))
  }

  lemma InvAlwaysKeeps(s: State)
    requires Inv(s)
    ensures AlwaysKeeps(s)
  {
    forall ls | IsSafeRun(s, ls) && IsRun(s, ls)
      ensures Exclusive(Final(s, ls)) && IndexedRowsStayUp(Final(s, ls))
    {
      SafeRunKeepsInv(s, ls);
      assert forall d <- Final(s, ls).docs :: DocOk(Final(s, ls).docs[d]);
    }
  }

  ghost predicate LeadsSafely(s: State, s': State) {
    exists ls :: IsSafeRun(s, ls) && IsRunTo(s, ls, s')
  }

  lemma {:induction false} SafelyExtend(s: State, ls: seq<Label>, l: Label)
    requires IsSafeRun(s, ls) && IsRun(s, ls) && Enabled(Final(s, ls), l) && SafeReset(Final(s, ls), l)
    ensures IsSafeRun(s, ls + [l])
    decreases |ls|
  {
    if ls == [] {
      assert [l][1..] == [];
    } else {
      SafelyExtend(Apply(s, ls[0]), ls[1..], l);
      assert (ls + [l])[1..] == ls[1..] + [l];
    }
  }

  lemma SafelyStart(s: State)
    ensures LeadsSafely(s, s)
  {
    assert IsSafeRun(s, []) && IsRunTo(s, [], s);
  }

  lemma SafelyOnward(s: State, s1: State, l: Label) returns (s2: State)
    requires LeadsSafely(s, s1) && Enabled(s1, l) && !l.ResetOrphan?
    ensures s2 == Apply(s1, l) && LeadsSafely(s, s2)
  {
    s2 := Apply(s1, l);
    var ls :| IsSafeRun(s, ls) && IsRunTo(s, ls, s1);
    Extend(s, ls, l);
    SafelyExtend(s, ls, l);
    assert IsRunTo(s, ls + [l], s2);
  }

  lemma LeadsToViolation(s: State, s': State)
    requires LeadsSafely(s, s') && !(Exclusive(s') && IndexedRowsStayUp(s'))
    ensures !AlwaysKeeps(s)
  {
    var ls :| IsSafeRun(s, ls) && IsRunTo(s, ls, s');
  }

  /** Worker `v` is idle and the last job to reach it can claim document `d`, which worker `w` holds. */
  ghost predicate Intrudes(s: State, v: nat, w: nat, d: DocId) {
    && v != w && IsWorker(s, v) && s.workers[v].Idle? && HoldsDoc(s, w, d)
    && s.queue != [] && s.queue[0].doc == d && !Locked(s, d)
    && HasRow(s, d) && Claimable(s.docs[d].row.value, s.queue[0].kind == Reindex)
  }

  /** The older jobs go to the intruder, who dies on each of them. */
  lemma DropOldest(s0: State, s: State, v: nat, w: nat, d: DocId) returns (s': State)
    requires LeadsSafely(s0, s) && Intrudes(s, v, w, d) && |s.queue| > 1
    ensures LeadsSafely(s0, s') && Intrudes(s', v, w, d) && |s'.queue| == |s.queue| - 1
  {
    var popped := SafelyOnward(s0, s, Pop(v));
    s' := SafelyOnward(s0, popped, Abandon(v));
    assert s'.workers == s.workers[v := Idle] && s'.queue == s.queue[..|s.queue| - 1];
    assert s'.docs == s.docs && s'.deletes == s.deletes && s'.bm25 == s.bm25;
  }

  lemma Intrude(s0: State, s: State, v: nat, w: nat, d: DocId) returns (s': State)
    requires LeadsSafely(s0, s) && Intrudes(s, v, w, d) && |s.queue| == 1
    ensures LeadsSafely(s0, s') && HoldsDoc(s', v, d) && HoldsDoc(s', w, d)
  {
    var popped := SafelyOnward(s0, s, Pop(v));
    assert popped.workers == s.workers[v := Popped(s.queue[0])] && popped.docs == s.docs && popped.deletes == s.deletes;
    s' := SafelyOnward(s0, popped, Claim(v));
    assert s'.workers == popped.workers[v := Claimed(s.queue[0], ClaimedRow(s.docs[d].row.value, s.now))];
  }

  lemma {:induction false} IntruderBreaksExclusion(s0: State, s: State, v: nat, w: nat, d: DocId)
    requires LeadsSafely(s0, s) && Intrudes(s, v, w, d)
    ensures !AlwaysKeeps(s0)
    decreases |s.queue|
  {
    if |s.queue| > 1 {
      var s' := DropOldest(s0, s, v, w, d);
      IntruderBreaksExclusion(s0, s', v, w, d);
    } else {
      var s' := Intrude(s0, s, v, w, d);
      LeadsToViolation(s0, s');
    }
  }

  /** The row that a restart has just written can be claimed by the job that it announces. */
  lemma ResetRowIsClaimable(s: State, o: Selection)
    requires Enabled(s, ResetOrphan(o)) && WritesOver(s, o)
    ensures
      var s', job := ApplyReset(s, o), Job(o.doc, RequeueKind(o.row), INITIAL_INDEX_ATTEMPT);
      && Producer(job, false) in s'.outbox && HasRow(s', o.doc)
      && Claimable(s'.docs[o.doc].row.value, job.kind == Reindex)
      && s'.workers == s.workers && s'.bm25 == s.bm25 && s'.deletes == s.deletes
  {
  }

  lemma HeldResetBreaksExclusion(s: State, o: Selection, v: nat, w: nat)
    requires Enabled(s, ResetOrphan(o)) && WritesOver(s, o) && HoldsDoc(s, w, o.doc) && v != w && IsWorker(s, v)
    ensures !AlwaysKeeps(Apply(s, ResetOrphan(o)))
  {
    var reset := ApplyReset(s, o);
    var job := Job(o.doc, RequeueKind(o.row), INITIAL_INDEX_ATTEMPT);
    ResetRowIsClaimable(s, o);
    SafelyStart(reset);
    var idle := reset;
    if !reset.workers[v].Idle? { idle := SafelyOnward(reset, reset, Abandon(v)); }
    assert idle == reset.(workers := reset.workers[v := Idle]);
    var pushed := SafelyOnward(reset, idle, Push(Producer(job, false)));
    assert pushed.queue[0] == job && HoldsDoc(pushed, w, o.doc);
    IntruderBreaksExclusion(reset, pushed, v, w, o.doc);
  }

  /** With a second worker about, the late write of a restart leaves every later state of every safe run with
      one worker a document at most and every indexed row up, exactly when it is safe: otherwise a second worker
      can claim the document next, or an indexed row is pending at once. */
  lemma LateResetIsSafeIff(s: State, o: Selection)
    requires Inv(s) && Enabled(s, ResetOrphan(o)) && |s.workers| > 1
    ensures AlwaysKeeps(Apply(s, ResetOrphan(o))) <==> SafeReset(s, ResetOrphan(o))
  {
    var s' := Apply(s, ResetOrphan(o));
    if SafeReset(s, ResetOrphan(o)) {
      ResetKeepsInv(s, o);
      InvAlwaysKeeps(s');
    } else if Held(s, o.doc) {
      var w: nat :| HoldsDoc(s, w, o.doc);
      HeldResetBreaksExclusion(s, o, if w == 0 then 1 else 0, w);
    } else {
      assert s'.docs[o.doc].row.value.status == Pending;
      SafelyStart(s');
      LeadsToViolation(s', s');
    }
  }

  // ---- Active but never indexed ----

  ghost predicate ActiveRowsIndexed(s: State) {
    forall d <- s.docs :: s.docs[d].row.Some? && s.docs[d].row.value.status == Active ==>
      s.docs[d].row.value.indexedAt.Some?
  }

  /** The step puts a row that was never indexed back to active: a failed reindex of such a
      document, or a restart that has selected a row that counts chunks. */
  predicate RestoresUnindexed(s: State, l: Label)
    requires Enabled(s, l)
  {
    match l
    case Work(w, wl) =>
      && (wl.Retry? || wl.MarkTerminal?)
      && s.workers[w].job.kind == Reindex
      && HasRow(s, s.workers[w].job.doc)
      && s.workers[w].snap.indexedAt.None?
    case ResetOrphan(o) => WritesOver(s, o) && IsReindex(o.row) && s.docs[o.doc].row.value.indexedAt.None?
    case _ => false
  }

  ghost predicate ActiveRowIndexed(doc: Doc) {
    doc.row.Some? && doc.row.value.status == Active ==> doc.row.value.indexedAt.Some?
  }

  lemma WorkActiveIff(pc: Pc, doc: Doc, now: nat, l: WorkerLabel)
    requires Holds(pc) && HolderOk(pc, doc) && CanStep(pc, doc, l) && ActiveRowIndexed(doc)
    ensures ActiveRowIndexed(NextDoc(pc, doc, now, l)) <==>
      !((l.Retry? || l.MarkTerminal?) && pc.job.kind == Reindex && doc.row.Some? && pc.snap.indexedAt.None?)
  {
  }

  lemma WorkKeepsActiveIff(s: State, w: nat, l: WorkerLabel)
    requires Inv(s) && ActiveRowsIndexed(s) && Enabled(s, Work(w, l))
    ensures ActiveRowsIndexed(ApplyWork(s, w, l)) <==> !RestoresUnindexed(s, Work(w, l))
  {
    var d := s.workers[w].job.doc;
    assert HoldsDoc(s, w, d) && HoldersOk(s, d);
    WorkActiveIff(s.workers[w], s.docs[d], s.now, l);
    OneDocChanges(s, ApplyWork(s, w, l), d);
  }

  /** "Active means indexed" is kept by a step exactly when the step does not restore an unindexed row. */
  lemma ActiveMeansIndexedIff(s: State, l: Label)
    requires Inv(s) && ActiveRowsIndexed(s) && Enabled(s, l)
    ensures ActiveRowsIndexed(Apply(s, l)) <==> !RestoresUnindexed(s, l)
  {
    if l.Work? {
      WorkKeepsActiveIff(s, l.w, l.l);
    } else if l.ResetOrphan? {
      if WritesOver(s, l.o) { OneDocChanges(s, Apply(s, l), l.o.doc); }
    } else {
      OtherStepsKeepActiveIndexed(s, l);
    }
  }

  lemma OtherStepsKeepActiveIndexed(s: State, l: Label)
    requires ActiveRowsIndexed(s) && Enabled(s, l) && !l.Work? && !l.ResetOrphan?
    ensures ActiveRowsIndexed(Apply(s, l))
  {
    if !WritesDocs(l) { DocsStay(s, l); }
    else if l.Claim? { ClaimKeepsActiveIndexed(s, l.w, s.workers[l.w].job); }
    else { RowWritesKeepActiveIndexed(s, l); }
  }

  lemma ClaimKeepsActiveIndexed(s: State, w: nat, job: Job)
    requires ActiveRowsIndexed(s) && w < |s.workers|
    ensures ActiveRowsIndexed(ApplyClaim(s, w, job))
  {
  }

  lemma RowWritesKeepActiveIndexed(s: State, l: Label)
    requires ActiveRowsIndexed(s) && Enabled(s, l) && WritesDocs(l) && !l.Work? && !l.ResetOrphan? && !l.Claim?
    ensures ActiveRowsIndexed(Apply(s, l))
  {
  }

  lemma OneDocChanges(s: State, s': State, d: DocId)
    requires d in s.docs && s'.docs.Keys == s.docs.Keys
    requires forall e <- s.docs :: e != d ==> s'.docs[e] == s.docs[e]
    requires ActiveRowsIndexed(s)
    ensures ActiveRowsIndexed(s') <==> ActiveRowIndexed(s'.docs[d])
  {
  }
}
