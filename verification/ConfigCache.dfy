/** The single-value configuration cache: local TTL, and an epoch that stops a load begun
    before an invalidation from being stored after it. */
module ConfigCache {
  import opened Wrappers

  /** What the cache object remembers. */
  datatype Memory<T> = Memory(value: Option<T>, loadedAt: real, epoch: nat)

  /** What a suspended `get` has put aside before awaiting its loader. */
  datatype Ticket = Ticket(now: real, epoch: nat)

  predicate Fresh<T>(m: Memory<T>, now: real, ttl: real) {
    m.value.Some? && now - m.loadedAt < ttl
  }

  function Stored<T>(m: Memory<T>, t: Ticket, value: T): Memory<T> {
    if m.epoch == t.epoch then m.(value := Some(value), loadedAt := t.now) else m
  }

  function Invalidated<T>(m: Memory<T>): Memory<T> {
    Memory(None, 0.0, m.epoch + 1)
  }

  datatype Begun<T> = Hit(value: T) | Miss(ticket: Ticket)

  /** The cache object. `get` is split at its only suspension point, the await of the loader. */
  class Cache<T> {
    const ttl: real
    var value: Option<T>
    var loadedAt: real
    var epoch: nat

    constructor (ttl: real)
      ensures this.ttl == ttl && State() == Memory(None, 0.0, 0)
    {
      this.ttl := ttl;
      value, loadedAt, epoch := None, 0.0, 0;
    }

    function State(): Memory<T>
      reads this
    {
      Memory(value, loadedAt, epoch)
    }

    /** `get` up to its await. */
    method BeginGet(now: real) returns (r: Begun<T>)
      ensures r == if Fresh(State(), now, ttl) then Hit(State().value.value) else Miss(Ticket(now, State().epoch))
    {
      if value.Some? && now - loadedAt < ttl {
        return Hit(value.value);
      }
      return Miss(Ticket(now, epoch));
    }

    /** `get` from its await on; the loaded value is returned whether or not it is stored. */
    method FinishGet(t: Ticket, loaded: T) returns (r: T)
      modifies this
      ensures r == loaded && State() == Stored(old(State()), t, loaded)
    {
      if epoch == t.epoch {
        value := Some(loaded);
        loadedAt := t.now;
      }
      return loaded;
    }

    method Invalidate()
      modifies this
      ensures State() == Invalidated(old(State()))
    {
      value := None;
      loadedAt := 0.0;
      epoch := epoch + 1;
    }
  }

  // ---- The cache among its loads ----

  /** A loaded value with the moments at which its load began and read the database. */
  datatype Stamped<V> = Stamped(value: V, begun: nat, read: nat)

  datatype Load<V> = Load(ticket: Ticket, begun: nat, result: Option<Stamped<V>>)

  datatype Moment<V> = Moment(now: real, db: V)

  /** `log` holds one entry per event: the clock and the committed configuration after it. The
      last entry is the present; `invalidated` is the entry of the last invalidation. */
  datatype World<V> = World(
    cache: Memory<Stamped<V>>, loads: map<nat, Load<V>>, log: seq<Moment<V>>, invalidated: nat)

  datatype Event<V> =
    | Begin(id: nat)
    | Read(id: nat)
    | Finish(id: nat)
    | Drop(id: nat)
    | Invalidate
    | Write(db: V)
    | Tick(dt: real)

  predicate HasLog<V>(w: World<V>) {
    w.log != []
  }

  function Now<V>(w: World<V>): Moment<V>
    requires HasLog(w)
  {
    w.log[|w.log| - 1]
  }

  predicate Enabled<V>(w: World<V>, e: Event<V>, ttl: real) {
    HasLog(w) &&
    match e
    case Begin(id) => id !in w.loads && !Fresh(w.cache, Now(w).now, ttl)
    case Read(id) => id in w.loads && w.loads[id].result.None?
    case Finish(id) => id in w.loads && w.loads[id].result.Some?
    case Drop(id) => id in w.loads
    case Invalidate => true
    case Write(_) => true
    case Tick(dt) => dt >= 0.0
  }

  /** Every event adds its own moment to the log. */
  function Apply<V>(w: World<V>, e: Event<V>, ttl: real): World<V>
    requires Enabled(w, e, ttl)
  {
    var here := |w.log|;
    var w1 := w.(log := w.log + [Now(w)]);
    match e
    case Begin(id) => w1.(loads := w.loads[id := Load(Ticket(Now(w).now, w.cache.epoch), here, None)])
    case Read(id) =>
      w1.(loads := w.loads[id := w.loads[id].(result := Some(Stamped(Now(w).db, w.loads[id].begun, here)))])
    case Finish(id) =>
      w1.(loads := w.loads - {id}, cache := Stored(w.cache, w.loads[id].ticket, w.loads[id].result.value))
    case Drop(id) => w1.(loads := w.loads - {id})
    case Invalidate => w1.(cache := Invalidated(w.cache), invalidated := here)
    case Write(db) => w.(log := w.log + [Now(w).(db := db)])
    case Tick(dt) => w.(log := w.log + [Now(w).(now := Now(w).now + dt)])
  }

  predicate IsRun<V>(w: World<V>, es: seq<Event<V>>, ttl: real)
    decreases |es|
  {
    es == [] || (Enabled(w, es[0], ttl) && IsRun(Apply(w, es[0], ttl), es[1..], ttl))
  }

  function Final<V>(w: World<V>, es: seq<Event<V>>, ttl: real): World<V>
    requires IsRun(w, es, ttl)
    decreases |es|
  {
    if es == [] then w else Final(Apply(w, es[0], ttl), es[1..], ttl)
  }

  function Initial<V>(db: V): World<V> {
    World(Memory(None, 0.0, 0), map[], [Moment(0.0, db)], 0)
  }

  // ---- Bounded staleness ----

  ghost predicate Monotone<V>(log: seq<Moment<V>>) {
    forall i, j :: 0 <= i <= j < |log| ==> log[i].now <= log[j].now
  }

  ghost predicate StampOk<V>(w: World<V>, s: Stamped<V>) {
    s.begun <= s.read < |w.log| && w.log[s.read].db == s.value
  }

  ghost predicate LoadOk<V>(w: World<V>, l: Load<V>) {
    && l.begun < |w.log|
    && l.ticket.now == w.log[l.begun].now
    && l.ticket.epoch <= w.cache.epoch
    && (l.ticket.epoch == w.cache.epoch ==> w.invalidated <= l.begun)
    && (l.result.Some? ==> l.result.value.begun == l.begun && StampOk(w, l.result.value))
  }

  ghost predicate CacheOk<V>(w: World<V>) {
    w.cache.value.Some? ==>
      var s := w.cache.value.value;
      && StampOk(w, s)
      && w.cache.loadedAt == w.log[s.begun].now
      && w.invalidated <= s.begun
  }

  ghost predicate Inv<V>(w: World<V>) {
    && HasLog(w)
    && w.invalidated < |w.log|
    && Monotone(w.log)
    && CacheOk(w)
    && forall id <- w.loads :: LoadOk(w, w.loads[id])
  }

  lemma LogGrows<V>(w: World<V>, e: Event<V>, ttl: real)
    requires Enabled(w, e, ttl) && Monotone(w.log)
    ensures w.log <= Apply(w, e, ttl).log && |Apply(w, e, ttl).log| == |w.log| + 1
    ensures Monotone(Apply(w, e, ttl).log)
  {
  }

  /** A load stays sound while the log grows and the epoch only moves with an invalidation. */
  lemma LoadStaysOk<V>(w: World<V>, w': World<V>, l: Load<V>)
    requires LoadOk(w, l) && w.log <= w'.log
    requires w.cache.epoch <= w'.cache.epoch
    requires w.cache.epoch == w'.cache.epoch ==> w'.invalidated == w.invalidated
    ensures LoadOk(w', l)
  {
  }

  lemma StepKeepsLoad<V>(w: World<V>, e: Event<V>, ttl: real, id: nat)
    requires Inv(w) && Enabled(w, e, ttl) && id in Apply(w, e, ttl).loads
    ensures LoadOk(Apply(w, e, ttl), Apply(w, e, ttl).loads[id])
  {
    LogGrows(w, e, ttl);
    if id in w.loads { LoadStaysOk(w, Apply(w, e, ttl), w.loads[id]); }
  }

  lemma StepKeepsCache<V>(w: World<V>, e: Event<V>, ttl: real)
    requires Inv(w) && Enabled(w, e, ttl)
    ensures CacheOk(Apply(w, e, ttl))
  {
    LogGrows(w, e, ttl);
    if e.Finish? { assert LoadOk(w, w.loads[e.id]); }
  }

  lemma StepKeepsInv<V>(w: World<V>, e: Event<V>, ttl: real)
    requires Inv(w) && Enabled(w, e, ttl)
    ensures Inv(Apply(w, e, ttl))
  {
    LogGrows(w, e, ttl);
    StepKeepsCache(w, e, ttl);
    forall id | id in Apply(w, e, ttl).loads ensures LoadOk(Apply(w, e, ttl), Apply(w, e, ttl).loads[id]) {
      StepKeepsLoad(w, e, ttl, id);
    }
  }

  lemma {:induction false} RunKeepsInv<V>(w: World<V>, es: seq<Event<V>>, ttl: real)
    requires Inv(w) && IsRun(w, es, ttl)
    ensures Inv(Final(w, es, ttl)) && |w.log| <= |Final(w, es, ttl).log|
    decreases |es|
  {
    if es != [] {
      StepKeepsInv(w, es[0], ttl);
      RunKeepsInv(Apply(w, es[0], ttl), es[1..], ttl);
    }
  }

  /** Whatever loads are in flight and in whichever order they finish, a hit returns a
      configuration that was committed at some moment after the last invalidation and less than
      one TTL ago, and it was read by a load that itself began in that span. */
  lemma HitIsRecent<V>(db: V, es: seq<Event<V>>, ttl: real)
    requires IsRun(Initial(db), es, ttl)
    requires var w := Final(Initial(db), es, ttl); HasLog(w) && Fresh(w.cache, Now(w).now, ttl)
    ensures
      var w := Final(Initial(db), es, ttl);
      var s := w.cache.value.value;
      && w.invalidated <= s.begun <= s.read < |w.log|
      && w.log[s.read].db == s.value
      && Now(w).now - ttl < w.log[s.begun].now <= w.log[s.read].now
  {
    RunKeepsInv(Initial(db), es, ttl);
  }

  // ---- Edits ----

  /** The load has read before moment `k`, and would still be stored. */
  predicate StorableFrom<V>(w: World<V>, l: Load<V>, k: nat) {
    l.result.Some? && l.result.value.read < k && l.ticket.epoch == w.cache.epoch
  }

  /** Nothing read before moment `k` can be hit any more. */
  predicate Settled<V>(w: World<V>, k: nat, ttl: real)
    requires HasLog(w)
  {
    && (w.cache.value.Some? && w.cache.value.value.read < k ==> !Fresh(w.cache, Now(w).now, ttl))
    && (forall id <- w.loads ::
          StorableFrom(w, w.loads[id], k) ==> Now(w).now - w.loads[id].ticket.now >= ttl)
  }

  lemma StepKeepsSettled<V>(w: World<V>, e: Event<V>, k: nat, ttl: real)
    requires Inv(w) && Enabled(w, e, ttl) && k <= |w.log| && Settled(w, k, ttl)
    ensures HasLog(Apply(w, e, ttl)) && Settled(Apply(w, e, ttl), k, ttl)
  {
  }

  lemma {:induction false} RunKeepsSettled<V>(w: World<V>, es: seq<Event<V>>, k: nat, ttl: real)
    requires Inv(w) && IsRun(w, es, ttl) && k <= |w.log| && Settled(w, k, ttl)
    ensures HasLog(Final(w, es, ttl)) && Settled(Final(w, es, ttl), k, ttl)
    decreases |es|
  {
    if es != [] {
      StepKeepsInv(w, es[0], ttl);
      StepKeepsSettled(w, es[0], k, ttl);
      RunKeepsSettled(Apply(w, es[0], ttl), es[1..], k, ttl);
    }
  }

  /** Some run ends with a hit on a value read before moment `k`. */
  ghost predicate CanHitOlder<V(!new)>(w: World<V>, k: nat, ttl: real) {
    exists es :: HitsOlder(w, es, k, ttl)
  }

  ghost predicate HitsOlder<V>(w: World<V>, es: seq<Event<V>>, k: nat, ttl: real) {
    && IsRun(w, es, ttl)
    && var w' := Final(w, es, ttl);
    && HasLog(w')
    && Fresh(w'.cache, Now(w').now, ttl)
    && w'.cache.value.value.read < k
  }

  /** Every later hit sees the configuration committed at the present moment, or a newer one,
      exactly when the present is settled: nothing fresh is cached and no load that has already
      read can still be stored fresh. */
  lemma EditIsSeenIff<V(!new)>(w: World<V>, ttl: real)
    requires Inv(w)
    ensures !CanHitOlder(w, |w.log| - 1, ttl) <==> Settled(w, |w.log| - 1, ttl)
  {
    var k := |w.log| - 1;
    if Settled(w, k, ttl) {
      if es :| HitsOlder(w, es, k, ttl) {
        RunKeepsSettled(w, es, k, ttl);
      }
    } else if w.cache.value.Some? && w.cache.value.value.read < k && Fresh(w.cache, Now(w).now, ttl) {
      assert HitsOlder(w, [], k, ttl);
    } else {
      var id :| id in w.loads && StorableFrom(w, w.loads[id], k) && Now(w).now - w.loads[id].ticket.now < ttl;
      var e := Event<V>.Finish(id);
      assert [e][1..] == [];
      assert HitsOlder(w, [e], k, ttl);
    }
  }

  /** Committing first and invalidating second makes the edit visible to every later hit. */
  lemma CommitThenInvalidateIsSeen<V(!new)>(w: World<V>, db: V, ttl: real)
    requires Inv(w)
    ensures
      var w1 := Apply(w, Write(db), ttl);
      var w2 := Apply(w1, Invalidate, ttl);
      !CanHitOlder(w2, |w1.log| - 1, ttl)
  {
    var w1 := Apply(w, Write(db), ttl);
    var w2 := Apply(w1, Event<V>.Invalidate, ttl);
    StepKeepsInv(w, Write(db), ttl);
    StepKeepsInv(w1, Event<V>.Invalidate, ttl);
    var k: nat := |w1.log| - 1;
    if es :| HitsOlder(w2, es, k, ttl) {
      RunKeepsSettled(w2, es, k, ttl);
    }
  }

  /** Invalidating before the commit does not: a load that reads in between is stored and hit. */
  lemma InvalidateThenCommitCanBeMissed<V(!new)>(w: World<V>, db: V, id: nat, ttl: real)
    requires Inv(w) && id !in w.loads && ttl > 0.0
    ensures
      var w1 := Apply(w, Invalidate, ttl);
      && Enabled(w1, Begin(id), ttl)
      && var w2 := Apply(w1, Begin(id), ttl);
      && Enabled(w2, Read(id), ttl)
      && var w3 := Apply(w2, Read(id), ttl);
      var w4 := Apply(w3, Write(db), ttl);
      CanHitOlder(w4, |w4.log| - 1, ttl)
  {
    var w1 := Apply(w, Event<V>.Invalidate, ttl);
    StepKeepsInv(w, Event<V>.Invalidate, ttl);
    var w2 := Apply(w1, Event<V>.Begin(id), ttl);
    StepKeepsInv(w1, Event<V>.Begin(id), ttl);
    var w3 := Apply(w2, Event<V>.Read(id), ttl);
    StepKeepsInv(w2, Event<V>.Read(id), ttl);
    var w4 := Apply(w3, Write(db), ttl);
    StepKeepsInv(w3, Write(db), ttl);
    EditIsSeenIff(w4, ttl);
    assert id in w4.loads;
  }
}
