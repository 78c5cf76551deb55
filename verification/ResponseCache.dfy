/**
 * The response cache over a lagging read replica. A snapshot of the database is the number of commits it
 * contains; a cached body is what its reads saw. Times are milliseconds.
 */
module ResponseCache {
  import opened Common

  type Cik = string

  datatype Endpoint = Company | Facts | Scores | Financials

  datatype Key = Key(endpoint: Endpoint, cik: Cik)

  datatype Table = Companies | FilingFacts

  /** A committed write to one company's rows. */
  datatype Write = Write(table: Table, cik: Cik, at: int)

  /** One read a body was built from: of which table, in which snapshot, and whether on the primary. */
  datatype Sight = Sight(table: Table, snapshot: nat, fromPrimary: bool)

  /** The reads a body was built from, and when the first of them ran. */
  datatype Body = Body(seen: seq<Sight>, since: int)

  datatype Entry = Entry(body: Body, expires: int)

  type Store = map<Key, Entry>

  const TTL_MS := 300_000
  const REPEAT_MS := 2000
  const WARN_EVERY_MS := 30_000
  const COOLDOWN_MS := 30_000

  /** Left-padded with zeros to ten characters. */
  function PadCik(cik: Cik): Cik
    decreases 10 - |cik|
  {
    if |cik| >= 10 then cik else PadCik("0" + cik)
  }

  function CacheKey(endpoint: Endpoint, cik: Cik): Key {
    Key(endpoint, PadCik(cik))
  }

  /** The keys a write deletes: those of every body built from the table. */
  function KeysOf(w: Write): set<Key> {
    match w.table
    case Companies => {Key(Company, w.cik), Key(Facts, w.cik)}
    case FilingFacts => {Key(Facts, w.cik), Key(Scores, w.cik), Key(Financials, w.cik)}
  }

  function Lookup(store: Store, key: Key, now: int): Option<Body> {
    if key in store && now < store[key].expires then Some(store[key].body) else None
  }

  function Stored(store: Store, key: Key, body: Body, now: int): Store {
    store[key := Entry(body, now + TTL_MS)]
  }

  /** The warnings logged, after one more failure: at most one in each interval. */
  function Warned(warnings: seq<int>, now: int): seq<int> {
    if warnings != [] && now - warnings[|warnings| - 1] < WARN_EVERY_MS then warnings else warnings + [now]
  }

  datatype Deletion = Deletion(keys: set<Key>, due: int)

  /** The cache one process talks to: Redis behind it, the deletions it has scheduled, its warning throttle. */
  class Cache {
    var store: Store
    var scheduled: seq<Deletion>
    var lastWarnAt: Option<int>
    var warnings: seq<int>

    /** However long Redis is away, two warnings are at least the throttle apart. */
    ghost predicate Valid()
      reads this
    {
      && lastWarnAt == (if warnings == [] then None else Some(warnings[|warnings| - 1]))
      && forall i :: 0 < i < |warnings| ==> warnings[i] - warnings[i - 1] >= 30_000
    }

    constructor ()
      ensures Valid() && store == map[] && scheduled == [] && warnings == []
    {
      store, scheduled, lastWarnAt, warnings := map[], [], None, [];
    }

    method Warn(now: int)
      requires Valid()
      modifies this`lastWarnAt, this`warnings
      ensures Valid()
      ensures warnings == Warned(old(warnings), now)
      ensures var before := old(warnings);
              warnings == before + [now] <==> before == [] || now >= before[|before| - 1] + 30_000
    {
      if lastWarnAt.Some? && now - lastWarnAt.value < WARN_EVERY_MS {
        return;
      }
      lastWarnAt := Some(now);
      warnings := warnings + [now];
    }

    /** A failed read is a miss; a hit leaves the entry and its expiry alone. */
    method Get(key: Key, now: int, up: bool) returns (body: Option<Body>)
      requires Valid()
      modifies this`lastWarnAt, this`warnings
      ensures Valid()
      ensures body == if up then Lookup(store, key, now) else None
      ensures warnings == if up then old(warnings) else Warned(old(warnings), now)
    {
      if !up {
        Warn(now);
        return None;
      }
      return Lookup(store, key, now);
    }

    method Set(key: Key, body: Body, now: int, up: bool)
      requires Valid()
      modifies this`store, this`lastWarnAt, this`warnings
      ensures Valid()
      ensures store == if up then Stored(old(store), key, body, now) else old(store)
      ensures warnings == if up then old(warnings) else Warned(old(warnings), now)
    {
      if !up {
        Warn(now);
        return;
      }
      store := store[key := Entry(body, now + TTL_MS)];
    }

    method Delete(keys: set<Key>, now: int, up: bool)
      requires Valid()
      modifies this`store, this`lastWarnAt, this`warnings
      ensures Valid()
      ensures store == if up then old(store) - keys else old(store)
      ensures warnings == if up then old(warnings) else Warned(old(warnings), now)
    {
      if !up {
        Warn(now);
        return;
      }
      store := store - keys;
    }

    /** Deletes at once and schedules the second deletion, whether or not the first went through. */
    method Invalidate(keys: set<Key>, now: int, up: bool)
      requires Valid()
      modifies this
      ensures Valid()
      ensures store == if up then old(store) - keys else old(store)
      ensures scheduled == if keys == {} then old(scheduled) else old(scheduled) + [Deletion(keys, now + REPEAT_MS)]
      ensures warnings == if up || keys == {} then old(warnings) else Warned(old(warnings), now)
    {
      if keys == {} {
        return;
      }
      Delete(keys, now, up);
      scheduled := scheduled + [Deletion(keys, now + REPEAT_MS)];
    }

    /** The timer of the i-th scheduled deletion fires. */
    method RunScheduled(i: nat, now: int, up: bool)
      requires Valid() && i < |scheduled| && scheduled[i].due <= now
      modifies this
      ensures Valid()
      ensures store == if up then old(store) - old(scheduled)[i].keys else old(store)
      ensures scheduled == old(scheduled)[..i] + old(scheduled)[i + 1..]
      ensures warnings == if up then old(warnings) else Warned(old(warnings), now)
    {
      Delete(scheduled[i].keys, now, up);
      scheduled := scheduled[..i] + scheduled[i + 1..];
    }

    /** What a route sends on a hit; nothing on a miss. */
    method SendIfCached(key: Key, now: int, up: bool) returns (sent: Option<Body>)
      requires Valid()
      modifies this`lastWarnAt, this`warnings
      ensures Valid()
      ensures sent == if up then Lookup(store, key, now) else None
      ensures warnings == if up then old(warnings) else Warned(old(warnings), now)
    {
      sent := Get(key, now, up);
    }

    /** Sends the body and stores it; a null body is sent and never stored. */
    method SendAndCache(key: Key, body: Option<Body>, now: int, up: bool) returns (sent: Option<Body>)
      requires Valid()
      modifies this`store, this`lastWarnAt, this`warnings
      ensures Valid() && sent == body
      ensures store == if up && body.Some? then Stored(old(store), key, body.value, now) else old(store)
      ensures warnings == if up || body.None? then old(warnings) else Warned(old(warnings), now)
    {
      sent := body;
      if body.Some? {
        Set(key, body.value, now, up);
      }
    }
  }

  /** Which server answers a query on the read handle. */
  class ReadDb {
    var replicaSkippedUntil: int

    constructor ()
      ensures replicaSkippedUntil == 0
    {
      replicaSkippedUntil := 0;
    }

    /**
     * True when the primary answers: during the cooldown, or because the replica just failed. The clock is read
     * when the query starts and, if the replica fails, again at `failedAt`.
     */
    method Query(now: int, replicaUp: bool, failedAt: int) returns (primary: bool)
      modifies this
      ensures primary == (now < old(replicaSkippedUntil) || !replicaUp)
      ensures replicaSkippedUntil == if now >= old(replicaSkippedUntil) && !replicaUp then failedAt + 30_000
                                     else old(replicaSkippedUntil)
    {
      if now < replicaSkippedUntil {
        return true;
      }
      if !replicaUp {
        replicaSkippedUntil := failedAt + COOLDOWN_MS;
        return true;
      }
      return false;
    }
  }

  // Readers, writers and the clock, in any interleaving.

  /**
   * A commit is in the replica once it is `lagMs` old (at least one: times are whole milliseconds), and a
   * body is stored at most `buildMs` after the first read it was built from.
   */
  datatype Config = Config(lagMs: int, buildMs: int) {
    ghost predicate Valid() {
      lagMs >= 1 && buildMs >= 0
    }
  }

  /** A writer after its commit, after its first deletion, and after a second deletion that succeeded. */
  datatype Writer = Committed(write: nat) | Scheduled(write: nat, due: int) | Done(write: nat)

  datatype Phase = LookingUp | LookingOnPrimary | Ingesting | Ingested | Building | Built

  /** A request after its cache miss: where it is in its handler, and what the body is built from so far. */
  datatype Reader = Reader(key: Key, phase: Phase, primary: bool, body: Body)

  datatype State = State(
    now: int,
    commits: seq<Write>,
    store: Store,
    writers: map<nat, Writer>,
    readers: map<nat, Reader>)

  datatype Event =
    | Tick(ms: nat)
    | Commit(id: nat, table: Table, cik: Cik)
    | FirstDeletion(id: nat, up: bool)
    | SecondDeletion(id: nat, up: bool)
    | WriterDies(id: nat)
    | Evict(keys: set<Key>)
    | Miss(id: nat, key: Key, up: bool)
    | Read(id: nat, fromPrimary: bool, snapshot: nat)
    | Upserted(id: nat)
    | Answered(id: nat)
    | Cached(id: nat, up: bool)

  /** Whether a snapshot holds the company's row. */
  predicate HasCompany(commits: seq<Write>, snapshot: nat, cik: Cik)
    requires snapshot <= |commits|
  {
    exists i :: 0 <= i < snapshot && commits[i].table == Companies && commits[i].cik == cik
  }

  /** The primary answers with every commit, the replica with at least those older than the lag. */
  predicate Visible(c: Config, s: State, fromPrimary: bool, snapshot: nat) {
    && snapshot <= |s.commits|
    && (fromPrimary ==> snapshot == |s.commits|)
    && forall i :: 0 <= i < |s.commits| && s.commits[i].at <= s.now - c.lagMs ==> i < snapshot
  }

  predicate MustAskPrimary(r: Reader) {
    r.phase == LookingOnPrimary || r.phase == Ingested || (r.phase == Building && r.primary)
  }

  predicate ReadyToStore(r: Reader) {
    r.phase == Built || (r.phase == Building && !r.key.endpoint.Facts? && r.body.seen != [])
  }

  predicate Enabled(c: Config, s: State, e: Event) {
    match e
    case Tick(_) => true
    case Commit(id, _, _) => id !in s.writers
    case FirstDeletion(id, _) => id in s.writers && s.writers[id].Committed? && s.writers[id].write < |s.commits|
    case SecondDeletion(id, _) =>
      && id in s.writers && s.writers[id].Scheduled? && s.writers[id].write < |s.commits|
      && s.writers[id].due <= s.now
    case WriterDies(id) => id in s.writers && !s.writers[id].Done?
    case Evict(_) => true
    case Miss(id, key, up) => id !in s.readers && (up ==> Lookup(s.store, key, s.now).None?)
    case Read(id, fromPrimary, snapshot) =>
      && id in s.readers
      && s.readers[id].phase in {LookingUp, LookingOnPrimary, Ingested, Building}
      && (MustAskPrimary(s.readers[id]) ==> fromPrimary)
      && Visible(c, s, fromPrimary, snapshot)
    case Upserted(id) => id in s.readers && s.readers[id].phase == Ingesting
    case Answered(id) => id in s.readers
    case Cached(id, _) =>
      && id in s.readers && ReadyToStore(s.readers[id])
      && s.now - s.readers[id].body.since <= c.buildMs
  }

  function AddRead(b: Body, v: Sight, now: int): Body {
    Body(b.seen + [v], if b.seen == [] then now else b.since)
  }

  /** The table a request reads next: the company's row until it is found, then its facts. */
  function TableRead(phase: Phase): Table {
    if phase == Building then FilingFacts else Companies
  }

  /**
   * The handlers after the company was found. `/:cik` has its body; `/:cik/facts` still reads the facts
   * from the same database; `/:cik/scores` and `/:cik/financials` use the lookup only as a check, and
   * read every figure from the primary.
   */
  function Found(r: Reader, v: Sight, primary: bool, now: int): Reader {
    match r.key.endpoint
    case Company => r.(phase := Built, primary := primary, body := AddRead(r.body, v, now))
    case Facts => r.(phase := Building, primary := primary, body := AddRead(r.body, v, now))
    case _ => r.(phase := Building, primary := true)
  }

  /** Where a read takes a request; None when it is answered without a body worth storing. */
  function AfterRead(s: State, r: Reader, snapshot: nat, fromPrimary: bool): Option<Reader>
    requires snapshot <= |s.commits|
  {
    var v := Sight(TableRead(r.phase), snapshot, fromPrimary);
    var found := HasCompany(s.commits, snapshot, r.key.cik);
    match r.phase
    case LookingUp =>
      if found then Some(Found(r, v, false, s.now)) else Some(r.(phase := LookingOnPrimary))
    case LookingOnPrimary =>
      if found then Some(Found(r, v, true, s.now))
      else if r.key.endpoint in {Company, Facts} then Some(r.(phase := Ingesting))
      else None
    case Ingested =>
      if found || r.key.endpoint.Facts? then Some(Found(r, v, true, s.now)) else None
    case _ =>
      Some(r.(phase := if r.key.endpoint.Facts? then Built else Building, body := AddRead(r.body, v, s.now)))
  }

  function Step(c: Config, s: State, e: Event): State
    requires Enabled(c, s, e)
  {
    match e
    case Tick(ms) => s.(now := s.now + ms)
    case Commit(id, table, cik) =>
      s.(commits := s.commits + [Write(table, cik, s.now)], writers := s.writers[id := Committed(|s.commits|)])
    case FirstDeletion(id, up) =>
      var i := s.writers[id].write;
      s.(store := if up then s.store - KeysOf(s.commits[i]) else s.store,
         writers := s.writers[id := Scheduled(i, s.now + REPEAT_MS)])
    case SecondDeletion(id, up) =>
      var i := s.writers[id].write;
      if up then s.(store := s.store - KeysOf(s.commits[i]), writers := s.writers[id := Done(i)])
      else s.(writers := s.writers - {id})
    case WriterDies(id) => s.(writers := s.writers - {id})
    case Evict(keys) => s.(store := s.store - keys)
    case Miss(id, key, _) => s.(readers := s.readers[id := Reader(key, LookingUp, false, Body([], s.now))])
    case Read(id, fromPrimary, snapshot) =>
      var next := AfterRead(s, s.readers[id], snapshot, fromPrimary);
      s.(readers := if next.Some? then s.readers[id := next.value] else s.readers - {id})
    case Upserted(id) => s.(readers := s.readers[id := s.readers[id].(phase := Ingested)])
    case Answered(id) => s.(readers := s.readers - {id})
    case Cached(id, up) =>
      var r := s.readers[id];
      s.(readers := s.readers - {id}, store := if up then Stored(s.store, r.key, r.body, s.now) else s.store)
  }

  /** How old a commit is at least that a read cannot have missed. */
  function LagOf(c: Config, v: Sight): int {
    if v.fromPrimary then 1 else c.lagMs
  }

  /** Every commit older than its lag when the body's first read ran is in each of its reads. */
  ghost predicate Fresh(c: Config, s: State, b: Body) {
    && b.since <= s.now
    && forall i, n :: 0 <= i < |s.commits| && 0 <= n < |b.seen| && s.commits[i].at <= b.since - LagOf(c, b.seen[n])
                      ==> i < b.seen[n].snapshot
  }

  /** The reads a finished body of an endpoint is made of. */
  predicate Complete(endpoint: Endpoint, seen: seq<Sight>) {
    match endpoint
    case Company => |seen| == 1 && seen[0].table == Companies
    case Facts => |seen| == 2 && seen[0].table == Companies && seen[1].table == FilingFacts
    case _ => seen != [] && OnlyPrimaryFacts(seen)
  }

  predicate OnlyPrimaryFacts(seen: seq<Sight>) {
    forall n :: 0 <= n < |seen| ==> seen[n].table == FilingFacts && seen[n].fromPrimary
  }

  predicate OnlyPrimary(b: Body) {
    forall n :: 0 <= n < |b.seen| ==> b.seen[n].fromPrimary
  }

  /** The lookup has missed the company on the read handle. */
  predicate PastMiss(r: Reader) {
    r.phase in {LookingOnPrimary, Ingesting, Ingested} || r.primary
  }

  /** The company has a row, or the body is one that is stored even without. */
  predicate Known(s: State, key: Key) {
    key.endpoint.Facts? || HasCompany(s.commits, |s.commits|, key.cik)
  }

  /** What a request has read so far. */
  predicate Sourced(r: Reader) {
    && (PastMiss(r) ==> OnlyPrimary(r.body))
    && match r.phase
       case Built => Complete(r.key.endpoint, r.body.seen)
       case Building =>
         if r.key.endpoint.Facts? then |r.body.seen| == 1 && r.body.seen[0].table == Companies
         else !r.key.endpoint.Company? && r.primary && OnlyPrimaryFacts(r.body.seen)
       case _ => r.body.seen == [] && (r.phase == LookingUp ==> !r.primary)
  }

  ghost predicate ReaderInv(c: Config, s: State, r: Reader) {
    Fresh(c, s, r.body) && Sourced(r) && (r.phase in {Building, Built} ==> Known(s, r.key))
  }

  ghost predicate WriterInv(s: State, w: Writer) {
    && w.write < |s.commits|
    && (w.Scheduled? ==> s.commits[w.write].at + REPEAT_MS <= w.due)
    && (w.Done? ==> s.commits[w.write].at + REPEAT_MS <= s.now)
  }

  ghost predicate EntryInv(c: Config, s: State, key: Key, entry: Entry) {
    && Fresh(c, s, entry.body)
    && Complete(key.endpoint, entry.body.seen) && Known(s, key)
    && entry.expires - TTL_MS - c.buildMs <= entry.body.since
  }

  ghost predicate Inv(c: Config, s: State) {
    && (forall i :: 0 <= i < |s.commits| ==> s.commits[i].at <= s.now)
    && (forall id :: id in s.writers ==> WriterInv(s, s.writers[id]))
    && (forall id :: id in s.readers ==> ReaderInv(c, s, s.readers[id]))
    && (forall k :: k in s.store ==> EntryInv(c, s, k, s.store[k]))
  }

  /** Each read of the table for which lag and build time stay within the repeat delay saw the i-th commit. */
  ghost predicate Saw(c: Config, b: Body, table: Table, i: nat) {
    forall n :: 0 <= n < |b.seen| && b.seen[n].table == table && LagOf(c, b.seen[n]) + c.buildMs <= REPEAT_MS
                ==> i < b.seen[n].snapshot
  }

  /** No body of a company misses a write to a table it was read from, once that write's second deletion is done. */
  ghost predicate NoStaleBody(c: Config, s: State) {
    forall id, k :: id in s.writers && s.writers[id].Done? && s.writers[id].write < |s.commits|
                    && k in s.store && k.cik == s.commits[s.writers[id].write].cik
                    ==> Saw(c, s.store[k].body, s.commits[s.writers[id].write].table, s.writers[id].write)
  }

  ghost predicate Legal(c: Config, s: State, events: seq<Event>)
    decreases |events|
  {
    events == [] || (Enabled(c, s, events[0]) && Legal(c, Step(c, s, events[0]), events[1..]))
  }

  function Run(c: Config, s: State, events: seq<Event>): State
    requires Legal(c, s, events)
    decreases |events|
  {
    if events == [] then s else Run(c, Step(c, s, events[0]), events[1..])
  }

  lemma AddReadIsFresh(c: Config, s: State, b: Body, table: Table, snapshot: nat, fromPrimary: bool)
    requires c.Valid() && Inv(c, s) && Fresh(c, s, b) && Visible(c, s, fromPrimary, snapshot)
    ensures Fresh(c, s, AddRead(b, Sight(table, snapshot, fromPrimary), s.now))
  {
  }

  lemma StepKeepsFresh(c: Config, s: State, e: Event, b: Body)
    requires c.Valid() && Inv(c, s) && Enabled(c, s, e) && Fresh(c, s, b)
    ensures Fresh(c, Step(c, s, e), b)
  {
  }

  lemma StepKeepsKnown(c: Config, s: State, e: Event, key: Key)
    requires Enabled(c, s, e) && Known(s, key)
    ensures Known(Step(c, s, e), key)
  {
    if !key.endpoint.Facts? {
      var i :| 0 <= i < |s.commits| && s.commits[i].table == Companies && s.commits[i].cik == key.cik;
      assert Step(c, s, e).commits[i] == s.commits[i];
    }
  }

  /** A write deletes an endpoint's key exactly if the endpoint's bodies are read from the table written. */
  lemma DeletedIffReadFrom(endpoint: Endpoint, seen: seq<Sight>, w: Write)
    requires Complete(endpoint, seen)
    ensures Key(endpoint, w.cik) in KeysOf(w) <==> exists v :: v in seen && v.table == w.table
  {
    assert seen[0] in seen && (endpoint == Facts ==> seen[1] in seen);
  }

  lemma ReadKeepsSourced(c: Config, s: State, r: Reader, snapshot: nat, fromPrimary: bool)
    requires ReaderInv(c, s, r) && Visible(c, s, fromPrimary, snapshot) && (MustAskPrimary(r) ==> fromPrimary)
    requires r.phase in {LookingUp, LookingOnPrimary, Ingested, Building}
    ensures var next := AfterRead(s, r, snapshot, fromPrimary);
            next.Some? ==>
              Sourced(next.value) && (next.value.phase in {Building, Built} ==> Known(s, next.value.key))
  {
  }

  lemma StepKeepsReaders(c: Config, s: State, e: Event)
    requires c.Valid() && Inv(c, s) && Enabled(c, s, e)
    ensures var t := Step(c, s, e); forall id :: id in t.readers ==> ReaderInv(c, t, t.readers[id])
  {
    var t := Step(c, s, e);
    forall id | id in t.readers
      ensures ReaderInv(c, t, t.readers[id])
    {
      if e.Read? && id == e.id {
        var r := s.readers[id];
        AddReadIsFresh(c, s, r.body, TableRead(r.phase), e.snapshot, e.fromPrimary);
        ReadKeepsSourced(c, s, r, e.snapshot, e.fromPrimary);
      } else if id in s.readers {
        StepKeepsFresh(c, s, e, s.readers[id].body);
        if Known(s, s.readers[id].key) {
          StepKeepsKnown(c, s, e, s.readers[id].key);
        }
      }
    }
  }

  lemma StepKeepsStore(c: Config, s: State, e: Event)
    requires c.Valid() && Inv(c, s) && Enabled(c, s, e)
    ensures var t := Step(c, s, e); forall k :: k in t.store ==> EntryInv(c, t, k, t.store[k])
  {
    var t := Step(c, s, e);
    forall k | k in t.store
      ensures EntryInv(c, t, k, t.store[k])
    {
      StepKeepsFresh(c, s, e, t.store[k].body);
      StepKeepsKnown(c, s, e, k);
    }
  }

  lemma StepKeepsInv(c: Config, s: State, e: Event)
    requires c.Valid() && Inv(c, s) && Enabled(c, s, e)
    ensures Inv(c, Step(c, s, e))
  {
    StepKeepsReaders(c, s, e);
    StepKeepsStore(c, s, e);
  }

  lemma StepKeepsStaleBodyOut(c: Config, s: State, e: Event, id: nat, k: Key)
    requires c.Valid() && Inv(c, s) && Enabled(c, s, e) && NoStaleBody(c, s)
    requires var t := Step(c, s, e);
             && id in t.writers && t.writers[id].Done? && t.writers[id].write < |t.commits|
             && k in t.store && k.cik == t.commits[t.writers[id].write].cik
             && WriterInv(t, t.writers[id]) && EntryInv(c, t, k, t.store[k])
    ensures var t := Step(c, s, e);
            Saw(c, t.store[k].body, t.commits[t.writers[id].write].table, t.writers[id].write)
  {
    var t := Step(c, s, e);
    var i := t.writers[id].write;
    if e.Cached? && k == s.readers[e.id].key && e.up {
      assert Fresh(c, s, s.readers[e.id].body);
    } else if e.SecondDeletion? && id == e.id {
      DeletedIffReadFrom(k.endpoint, t.store[k].body.seen, t.commits[i]);
      assert forall n :: 0 <= n < |t.store[k].body.seen| ==> t.store[k].body.seen[n] in t.store[k].body.seen;
    } else {
      assert id in s.writers && s.writers[id] == t.writers[id];
    }
  }

  /**
   * The step that matters: a body stored after the second deletion cannot miss the write, because a read
   * that missed it ran less than the lag after the commit, and the body was stored too soon after that.
   */
  lemma StepKeepsStaleBodiesOut(c: Config, s: State, e: Event)
    requires c.Valid() && Inv(c, s) && Enabled(c, s, e) && NoStaleBody(c, s)
    ensures NoStaleBody(c, Step(c, s, e))
  {
    var t := Step(c, s, e);
    forall id, k | id in t.writers && t.writers[id].Done? && t.writers[id].write < |t.commits|
                   && k in t.store && k.cik == t.commits[t.writers[id].write].cik
      ensures Saw(c, t.store[k].body, t.commits[t.writers[id].write].table, t.writers[id].write)
    {
      StepKeepsInv(c, s, e);
      StepKeepsStaleBodyOut(c, s, e, id, k);
    }
  }

  /** A first deletion that succeeds leaves no body of the company that was read from the table. */
  lemma FirstDeletionClears(c: Config, s: State, id: nat, k: Key)
    requires Inv(c, s) && Enabled(c, s, FirstDeletion(id, true)) && k.cik == s.commits[s.writers[id].write].cik
    ensures var hit := Lookup(Step(c, s, FirstDeletion(id, true)).store, k, s.now);
            hit.Some? ==> forall v :: v in hit.value.seen ==> v.table != s.commits[s.writers[id].write].table
  {
    if k in s.store {
      DeletedIffReadFrom(k.endpoint, s.store[k].body.seen, s.commits[s.writers[id].write]);
    }
  }

  lemma {:induction false} RunKeepsStaleBodiesOut(c: Config, s: State, events: seq<Event>)
    requires c.Valid() && Inv(c, s) && NoStaleBody(c, s) && Legal(c, s, events)
    ensures NoStaleBody(c, Run(c, s, events)) && Inv(c, Run(c, s, events))
    decreases |events|
  {
    if events != [] {
      StepKeepsInv(c, s, events[0]);
      StepKeepsStaleBodiesOut(c, s, events[0]);
      RunKeepsStaleBodiesOut(c, Step(c, s, events[0]), events[1..]);
    }
  }

  /** A write stays committed, and done once it is. */
  lemma {:induction false} DoneStays(c: Config, s: State, events: seq<Event>, id: nat)
    requires Legal(c, s, events) && id in s.writers && s.writers[id].Done? && s.writers[id].write < |s.commits|
    ensures var t := Run(c, s, events);
            && id in t.writers && t.writers[id] == s.writers[id]
            && |s.commits| <= |t.commits| && t.commits[s.writers[id].write] == s.commits[s.writers[id].write]
    decreases |events|
  {
    if events != [] {
      DoneStays(c, Step(c, s, events[0]), events[1..], id);
    }
  }

  function Initial(now: int): State {
    State(now, [], map[], map[], map[])
  }

  /** Scores and financials are computed on the primary, so replica lag does not touch them. */
  predicate ComputedOnPrimary(endpoint: Endpoint) {
    endpoint == Scores || endpoint == Financials
  }

  /**
   * When replica lag and build time together stay within the repeat delay - for scores and financials, the build
   * time alone - no request, from a write's second deletion on, is served a body with a read of the written
   * table that misses the write, for any interleaving before and after.
   */
  lemma SecondDeletionEndsStaleness(c: Config, start: int, before: seq<Event>, after: seq<Event>, id: nat,
                                    endpoint: Endpoint)
    requires c.Valid() && (c.lagMs + c.buildMs <= 2000 || (ComputedOnPrimary(endpoint) && c.buildMs < 2000))
    requires Legal(c, Initial(start), before) && Legal(c, Run(c, Initial(start), before), after)
    requires var s := Run(c, Initial(start), before); id in s.writers && s.writers[id].Done?
    ensures var s := Run(c, Initial(start), before);
            var t, i := Run(c, s, after), s.writers[id].write;
            && i < |s.commits|
            && var hit := Lookup(t.store, Key(endpoint, s.commits[i].cik), t.now);
               hit.Some? ==> forall v :: v in hit.value.seen && v.table == s.commits[i].table ==> i < v.snapshot
  {
    var s := Run(c, Initial(start), before);
    RunKeepsStaleBodiesOut(c, Initial(start), before);
    RunKeepsStaleBodiesOut(c, s, after);
    assert WriterInv(s, s.writers[id]);
    DoneStays(c, s, after, id);
    var t, i := Run(c, s, after), s.writers[id].write;
    var key := Key(endpoint, s.commits[i].cik);
    if key in t.store {
      assert EntryInv(c, t, key, t.store[key]);
      assert Saw(c, t.store[key].body, t.commits[i].table, i);
    }
  }

  /**
   * With no word about deletions: a hit reflects every write older than the TTL, the build time and the lag; for
   * scores and financials the lag does not count.
   */
  lemma TtlBoundsStaleness(c: Config, start: int, events: seq<Event>, key: Key, i: nat)
    requires c.Valid() && Legal(c, Initial(start), events)
    requires var s := Run(c, Initial(start), events);
             && Lookup(s.store, key, s.now).Some? && i < |s.commits|
             && var lag := if ComputedOnPrimary(key.endpoint) then 0 else c.lagMs;
                s.commits[i].at <= s.now - (300_000 + c.buildMs + lag)
    ensures var s := Run(c, Initial(start), events);
            forall v :: v in Lookup(s.store, key, s.now).value.seen ==> i < v.snapshot
  {
    RunKeepsStaleBodiesOut(c, Initial(start), events);
    var s := Run(c, Initial(start), events);
    assert EntryInv(c, s, key, s.store[key]);
  }

  /** Which tables a hit was read from, on which database where that is certain, and for which companies. */
  lemma HitsAreComplete(c: Config, start: int, events: seq<Event>, key: Key)
    requires c.Valid() && Legal(c, Initial(start), events)
    requires var s := Run(c, Initial(start), events); Lookup(s.store, key, s.now).Some?
    ensures var s := Run(c, Initial(start), events);
            var seen := Lookup(s.store, key, s.now).value.seen;
            && (key.endpoint == Company <==> forall v :: v in seen ==> v.table == Companies)
            && (key.endpoint == Facts <==>
                 (exists v :: v in seen && v.table == Companies) && (exists v :: v in seen && v.table == FilingFacts))
            && (key.endpoint == Scores || key.endpoint == Financials ==> forall v :: v in seen ==> v.fromPrimary)
            && (key.endpoint != Facts ==> exists i :: 0 <= i < |s.commits| && s.commits[i].table == Companies
                                                       && s.commits[i].cik == key.cik)
  {
    RunKeepsStaleBodiesOut(c, Initial(start), events);
    var s := Run(c, Initial(start), events);
    assert EntryInv(c, s, key, s.store[key]);
    var seen := s.store[key].body.seen;
    assert seen[0] in seen && (key.endpoint == Facts ==> seen[1] in seen);
  }

  /**
   * A company the read handle does not have is looked up on the primary before anything else: found there, the
   * request goes on; if not, only the company's own page and its facts are fetched from SEC.
   */
  lemma MissesAreCheckedOnThePrimary(c: Config, s: State, id: nat, snapshot: nat)
    requires Enabled(c, s, Read(id, false, snapshot)) && s.readers[id].phase == LookingUp
    requires forall i :: 0 <= i < snapshot && s.commits[i].table == Companies ==>
               s.commits[i].cik != s.readers[id].key.cik
    ensures var t := Step(c, s, Read(id, false, snapshot));
            && Enabled(c, t, Read(id, true, |s.commits|))
            && var readers, key := Step(c, t, Read(id, true, |s.commits|)).readers, s.readers[id].key;
               if exists i :: 0 <= i < |s.commits| && s.commits[i].table == Companies && s.commits[i].cik == key.cik
               then id in readers && readers[id].phase == if key.endpoint == Company then Built else Building
               else if key.endpoint == Company || key.endpoint == Facts
               then id in readers && readers[id].phase == Ingesting
               else id !in readers
  {
    var t := Step(c, s, Read(id, false, snapshot));
    assert !HasCompany(s.commits, snapshot, s.readers[id].key.cik);
    assert t.readers[id].phase == LookingOnPrimary && t.commits == s.commits && t.now == s.now;
  }

  /**
   * After the fetch the company is read from the primary again: its page is then built if it is there; its facts
   * are built either way.
   */
  lemma FetchedThenRead(c: Config, s: State, id: nat)
    requires c.Valid() && Inv(c, s) && Enabled(c, s, Upserted(id)) && s.readers[id].key.endpoint in {Company, Facts}
    ensures var t := Step(c, s, Upserted(id));
            && Enabled(c, t, Read(id, true, |s.commits|))
            && var readers, key := Step(c, t, Read(id, true, |s.commits|)).readers, s.readers[id].key;
               && (key.endpoint == Facts ==> id in readers && readers[id].phase == Building && readers[id].primary)
               && (key.endpoint == Company ==>
                    (id in readers <==> exists i :: 0 <= i < |s.commits| && s.commits[i].table == Companies
                                                    && s.commits[i].cik == key.cik))
               && (id in readers ==> readers[id].body.seen == [Sight(Companies, |s.commits|, true)])
  {
    var t := Step(c, s, Upserted(id));
    assert Sourced(s.readers[id]);
    assert t.readers[id].phase == Ingested && t.commits == s.commits && t.now == s.now;
  }

  /** Once its lookup has missed the company on the read handle, everything a request reads is from the primary. */
  lemma AfterAMissOnlyThePrimary(c: Config, s: State, events: seq<Event>, id: nat)
    requires c.Valid() && Inv(c, s) && Legal(c, s, events)
    requires id in s.readers && s.readers[id].phase == LookingOnPrimary
    requires forall e :: e in events ==> !(e.Miss? && e.id == id)
    ensures var t := Run(c, s, events); id in t.readers ==> OnlyPrimary(t.readers[id].body)
  {
    StaysPastMiss(c, s, events, id);
  }

  lemma StepStaysPastMiss(c: Config, s: State, e: Event, id: nat)
    requires Enabled(c, s, e) && (id in s.readers ==> PastMiss(s.readers[id]) && Sourced(s.readers[id]))
    requires !(e.Miss? && e.id == id)
    ensures var t := Step(c, s, e); id in t.readers ==> PastMiss(t.readers[id])
  {
    var t := Step(c, s, e);
    if id in t.readers && !(e.Read? && e.id == id) && !(e.Upserted? && e.id == id) {
      assert id in s.readers && t.readers[id] == s.readers[id];
    }
  }

  lemma {:induction false} StaysPastMiss(c: Config, s: State, events: seq<Event>, id: nat)
    requires c.Valid() && Inv(c, s) && Legal(c, s, events)
    requires id in s.readers ==> PastMiss(s.readers[id])
    requires forall e :: e in events ==> !(e.Miss? && e.id == id)
    ensures var t := Run(c, s, events); id in t.readers ==> PastMiss(t.readers[id]) && OnlyPrimary(t.readers[id].body)
    decreases |events|
  {
    if events != [] {
      StepKeepsInv(c, s, events[0]);
      assert events[0] in events;
      StepStaysPastMiss(c, s, events[0], id);
      StaysPastMiss(c, Step(c, s, events[0]), events[1..], id);
    }
  }

  /** Whether an event touches the key's entry: evicts it, replaces it, or deletes it for a write it was read from. */
  predicate Touches(c: Config, s: State, e: Event, key: Key)
    requires Enabled(c, s, e) && key in s.store
  {
    match e
    case Evict(keys) => key in keys
    case Cached(id, up) => up && s.readers[id].key == key
    case FirstDeletion(id, up) => up && ReadFor(s, s.writers[id].write, key)
    case SecondDeletion(id, up) => up && s.writers[id].write < |s.commits| && ReadFor(s, s.writers[id].write, key)
    case _ => false
  }

  predicate ReadFor(s: State, i: nat, key: Key)
    requires i < |s.commits| && key in s.store
  {
    s.commits[i].cik == key.cik && exists v :: v in s.store[key].body.seen && v.table == s.commits[i].table
  }

  /** The entry survives exactly the steps that do not touch it. */
  lemma TouchedOrKept(c: Config, s: State, e: Event, key: Key)
    requires c.Valid() && Inv(c, s) && Enabled(c, s, e) && key in s.store
    ensures !Touches(c, s, e, key) ==> key in Step(c, s, e).store && Step(c, s, e).store[key] == s.store[key]
    ensures Touches(c, s, e, key) && !e.Cached? ==> key !in Step(c, s, e).store
  {
    if e.FirstDeletion? || e.SecondDeletion? {
      var w := s.commits[s.writers[e.id].write];
      assert EntryInv(c, s, key, s.store[key]);
      DeletedIffReadFrom(key.endpoint, s.store[key].body.seen, w);
    }
  }

  ghost predicate Untouched(c: Config, s: State, events: seq<Event>, key: Key)
    requires Legal(c, s, events)
    decreases |events|
  {
    events == []
    || (key in s.store && !Touches(c, s, events[0], key) && Untouched(c, Step(c, s, events[0]), events[1..], key))
  }

  lemma {:induction false} UntouchedIsKept(c: Config, s: State, events: seq<Event>, key: Key)
    requires c.Valid() && Inv(c, s) && Legal(c, s, events) && key in s.store && Untouched(c, s, events, key)
    ensures key in Run(c, s, events).store && Run(c, s, events).store[key] == s.store[key]
    decreases |events|
  {
    if events != [] {
      StepKeepsInv(c, s, events[0]);
      TouchedOrKept(c, s, events[0], key);
      UntouchedIsKept(c, Step(c, s, events[0]), events[1..], key);
    }
  }

  /** The cache is of use: a stored body that nothing touches is served for five minutes, and not after. */
  lemma ServedForFiveMinutes(c: Config, s: State, id: nat, events: seq<Event>)
    requires c.Valid() && Inv(c, s) && Enabled(c, s, Cached(id, true))
    requires var t := Step(c, s, Cached(id, true)); Legal(c, t, events) && Untouched(c, t, events, s.readers[id].key)
    ensures var now := Run(c, Step(c, s, Cached(id, true)), events).now;
            Lookup(Run(c, Step(c, s, Cached(id, true)), events).store, s.readers[id].key, now)
            == if now < s.now + 300_000 then Some(s.readers[id].body) else None
  {
    StepKeepsInv(c, s, Cached(id, true));
    UntouchedIsKept(c, Step(c, s, Cached(id, true)), events, s.readers[id].key);
  }

  lemma {:induction false} OneMore(c: Config, s: State, events: seq<Event>, e: Event)
    requires Legal(c, s, events) && Enabled(c, Run(c, s, events), e)
    ensures Legal(c, s, events + [e])
    ensures Run(c, s, events + [e]) == Step(c, Run(c, s, events), e)
    decreases |events|
  {
    if events == [] {
      assert [] + [e] == [e];
      assert Run(c, s, [e]) == Run(c, Step(c, s, e), []);
    } else {
      assert (events + [e])[1..] == events[1..] + [e];
      OneMore(c, Step(c, s, events[0]), events[1..], e);
    }
  }

  lemma Extend(c: Config, events: seq<Event>, e: Event) returns (longer: seq<Event>)
    requires Legal(c, Initial(0), events) && Enabled(c, Run(c, Initial(0), events), e)
    ensures longer == events + [e] && Legal(c, Initial(0), longer)
    ensures Run(c, Initial(0), longer) == Step(c, Run(c, Initial(0), events), e)
  {
    OneMore(c, Initial(0), events, e);
    longer := events + [e];
  }

  /** The company is created and, once the replica has it, written again; a request then starts. */
  lemma UpToTheRead(c: Config, cik: Cik, readAt: nat) returns (events: seq<Event>)
    requires c.Valid()
    ensures forall e :: e in events ==> (e.FirstDeletion? ==> e.up) && !e.SecondDeletion? && !e.WriterDies?
    ensures Legal(c, Initial(0), events)
    ensures Run(c, Initial(0), events)
            == State(c.lagMs + readAt,
                     [Write(Companies, cik, 0), Write(Companies, cik, c.lagMs)],
                     map[],
                     map[0 := Committed(0), 1 := Scheduled(1, c.lagMs + REPEAT_MS)],
                     map[0 := Reader(Key(Company, cik), LookingUp, false, Body([], c.lagMs + readAt))])
  {
    events := Extend(c, [], Commit(0, Companies, cik));
    events := Extend(c, events, Tick(c.lagMs));
    events := Extend(c, events, Commit(1, Companies, cik));
    var s := Run(c, Initial(0), events);
    assert s.writers == map[0 := Committed(0), 1 := Committed(1)];
    events := Extend(c, events, FirstDeletion(1, true));
    s := Run(c, Initial(0), events);
    assert s.store == map[] && s.writers == map[0 := Committed(0), 1 := Scheduled(1, c.lagMs + REPEAT_MS)];
    events := Extend(c, events, Tick(readAt));
    events := Extend(c, events, Miss(0, Key(Company, cik), true));
  }

  /** The request's read misses the second write, and the second deletion falls due. */
  lemma UpToTheBody(c: Config, cik: Cik, readAt: nat) returns (events: seq<Event>)
    requires c.Valid() && readAt < c.lagMs && readAt <= REPEAT_MS
    ensures forall e :: e in events ==> (e.FirstDeletion? ==> e.up) && !e.SecondDeletion? && !e.WriterDies?
    ensures Legal(c, Initial(0), events)
    ensures Run(c, Initial(0), events)
            == State(c.lagMs + REPEAT_MS,
                     [Write(Companies, cik, 0), Write(Companies, cik, c.lagMs)],
                     map[],
                     map[0 := Committed(0), 1 := Scheduled(1, c.lagMs + REPEAT_MS)],
                     map[0 := Reader(Key(Company, cik), Built, false,
                                     Body([Sight(Companies, 1, false)], c.lagMs + readAt))])
  {
    events := UpToTheRead(c, cik, readAt);
    var s := Run(c, Initial(0), events);
    assert s.commits[0].cik == cik && HasCompany(s.commits, 1, cik);
    events := Extend(c, events, Read(0, false, 1));
    var r := Run(c, Initial(0), events).readers[0];
    assert r.body.seen == [Sight(Companies, 1, false)];
    assert Run(c, Initial(0), events).readers == map[0 := r];
    events := Extend(c, events, Tick(REPEAT_MS - readAt));
  }

  /**
   * The bound is exact: for every lag and build time that together exceed the repeat delay, some run with
   * every deletion succeeding leaves a body in the cache that misses a write whose second deletion is done.
   */
  lemma BeyondTheBoundStaleBodiesSurvive(c: Config, cik: Cik) returns (events: seq<Event>)
    requires c.Valid() && c.lagMs + c.buildMs > 2000
    ensures forall e :: e in events ==> (e.FirstDeletion? || e.SecondDeletion? ==> e.up) && !e.WriterDies?
    ensures Legal(c, Initial(0), events)
    ensures var s := Run(c, Initial(0), events);
            && 1 in s.writers && s.writers[1] == Done(1) && |s.commits| == 2
            && s.commits[1].table == Companies && s.commits[1].cik == cik
            && Lookup(s.store, Key(Company, cik), s.now).Some?
            && Lookup(s.store, Key(Company, cik), s.now).value.seen == [Sight(Companies, 1, false)]
  {
    var readAt := if c.lagMs - 1 <= REPEAT_MS then c.lagMs - 1 else REPEAT_MS;
    events := UpToTheBody(c, cik, readAt);
    var r := Run(c, Initial(0), events).readers[0];
    events := Extend(c, events, SecondDeletion(1, true));
    events := Extend(c, events, Cached(0, true));
  }

  /** The company is created, and a request for its scores starts. */
  lemma UpToTheLookup(c: Config, cik: Cik) returns (events: seq<Event>)
    requires c.Valid()
    ensures forall e :: e in events ==> !e.FirstDeletion? && !e.SecondDeletion? && !e.WriterDies?
    ensures Legal(c, Initial(0), events)
    ensures Run(c, Initial(0), events)
            == State(c.lagMs, [Write(Companies, cik, 0)], map[], map[0 := Committed(0)],
                     map[0 := Reader(Key(Scores, cik), LookingUp, false, Body([], c.lagMs))])
  {
    events := Extend(c, [], Commit(0, Companies, cik));
    events := Extend(c, events, Tick(c.lagMs));
    events := Extend(c, events, Miss(0, Key(Scores, cik), true));
  }

  /** It finds the company and computes; then a fact is written. */
  lemma UpToTheScores(c: Config, cik: Cik) returns (events: seq<Event>)
    requires c.Valid()
    ensures forall e :: e in events ==> !e.FirstDeletion? && !e.SecondDeletion? && !e.WriterDies?
    ensures Legal(c, Initial(0), events)
    ensures Run(c, Initial(0), events)
            == State(c.lagMs,
                     [Write(Companies, cik, 0), Write(FilingFacts, cik, c.lagMs)],
                     map[],
                     map[0 := Committed(0), 1 := Committed(1)],
                     map[0 := Reader(Key(Scores, cik), Building, true, Body([Sight(FilingFacts, 1, true)], c.lagMs))])
  {
    events := UpToTheLookup(c, cik);
    var s := Run(c, Initial(0), events);
    assert s.commits[0].cik == cik && HasCompany(s.commits, 1, cik);
    events := Extend(c, events, Read(0, false, 1));
    events := Extend(c, events, Read(0, true, 1));
    var r := Run(c, Initial(0), events).readers[0];
    assert r.body.seen == [Sight(FilingFacts, 1, true)] && Run(c, Initial(0), events).readers == map[0 := r];
    events := Extend(c, events, Commit(1, FilingFacts, cik));
  }

  /** The same for scores: whatever the lag, building as long as the repeat delay is enough to serve stale ones. */
  lemma LongBuildsLeaveStaleScores(c: Config, cik: Cik) returns (events: seq<Event>)
    requires c.Valid() && c.buildMs >= 2000
    ensures forall e :: e in events ==> (e.FirstDeletion? || e.SecondDeletion? ==> e.up) && !e.WriterDies?
    ensures Legal(c, Initial(0), events)
    ensures var s := Run(c, Initial(0), events);
            && 1 in s.writers && s.writers[1] == Done(1) && |s.commits| == 2
            && s.commits[1].table == FilingFacts && s.commits[1].cik == cik
            && Lookup(s.store, Key(Scores, cik), s.now).Some?
            && Lookup(s.store, Key(Scores, cik), s.now).value.seen == [Sight(FilingFacts, 1, true)]
  {
    events := UpToTheScores(c, cik);
    events := Extend(c, events, FirstDeletion(1, true));
    events := Extend(c, events, Tick(2000));
    events := Extend(c, events, SecondDeletion(1, true));
    events := Extend(c, events, Cached(0, true));
  }

  /** And the TTL bound is exact for them: a writer that dies before its deletions leaves a body that reaches it. */
  lemma LostDeletionsReachTheTtlBound(c: Config, cik: Cik) returns (events: seq<Event>)
    requires c.Valid()
    ensures Legal(c, Initial(0), events)
    ensures var s := Run(c, Initial(0), events);
            && |s.commits| == 2 && s.commits[1].at == s.now - (300_000 + c.buildMs) + 1
            && Lookup(s.store, Key(Scores, cik), s.now).Some?
            && Lookup(s.store, Key(Scores, cik), s.now).value.seen == [Sight(FilingFacts, 1, true)]
  {
    events := UpToTheScores(c, cik);
    events := Extend(c, events, WriterDies(1));
    events := Extend(c, events, Tick(c.buildMs));
    events := Extend(c, events, Cached(0, true));
    events := Extend(c, events, Tick(299_999));
  }

  // The same company under both spellings of its number.

  /** Without leading zeros. */
  function Bare(cik: Cik): Cik {
    if cik != "" && cik[0] == '0' then Bare(cik[1..]) else cik
  }

  lemma {:induction false} PaddingKeepsTheNumber(cik: Cik)
    ensures Bare(PadCik(cik)) == Bare(cik) && |PadCik(cik)| == if |cik| >= 10 then |cik| else 10
    decreases 10 - |cik|
  {
    if |cik| < 10 {
      PaddingKeepsTheNumber("0" + cik);
      assert ("0" + cik)[1..] == cik;
    }
  }

  lemma {:induction false} BareAndLengthDetermine(a: Cik, b: Cik)
    requires |a| == |b| && Bare(a) == Bare(b)
    ensures a == b
    decreases |a|
  {
    BareIsNoLonger(a);
    BareIsNoLonger(b);
    if a != "" && a[0] == '0' && b[0] == '0' {
      BareAndLengthDetermine(a[1..], b[1..]);
      assert a == [a[0]] + a[1..] && b == [b[0]] + b[1..];
    } else if a != "" && a[0] == '0' {
      BareIsNoLonger(a[1..]);
    } else if b != "" && b[0] == '0' {
      BareIsNoLonger(b[1..]);
    }
  }

  lemma {:induction false} BareIsNoLonger(a: Cik)
    ensures |Bare(a)| <= |a|
    decreases |a|
  {
    if a != "" && a[0] == '0' {
      BareIsNoLonger(a[1..]);
    }
  }

  /** Two spellings reach the same entry exactly when they are the same number. */
  lemma KeysAgreeIffSameNumber(endpoint: Endpoint, a: Cik, b: Cik)
    requires |a| <= 10 && |b| <= 10
    ensures CacheKey(endpoint, a) == CacheKey(endpoint, b) <==> Bare(a) == Bare(b)
  {
    PaddingKeepsTheNumber(a);
    PaddingKeepsTheNumber(b);
    if Bare(a) == Bare(b) {
      BareAndLengthDetermine(PadCik(a), PadCik(b));
    }
  }
}
