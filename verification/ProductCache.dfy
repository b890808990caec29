/**
 * The cache-aside product cache, for one product id: loads, fills, updates and deletes of any number of
 * processes interleave. Times are milliseconds; a Redis key is gone once its expiry is reached.
 */
module ProductCache {
  import opened Runs

  type LoadId = nat
  type Version = nat

  /** What the products table has for the id. */
  datatype Row = Missing | Product(stock: int)

  datatype Write = Write(row: Row, at: int)

  /** A load that has read the row (as of `version`) and not yet filled. */
  datatype Load = Load(version: Version, readAt: int)

  /** `deletedBefore`, a history variable: the updates whose cache delete had run when the entry was filled. */
  datatype Entry = Empty | Filled(version: Version, readAt: int, expires: int, deletedBefore: set<Version>)

  datatype Options = Options(ttl: int, ttlJitter: int, missTtl: int)

  /**
   * `writes` is the history of the row; its last element is the row now. `pending` are the versions whose
   * cache delete has not run: updates between database write and delete, and writers that never delete.
   */
  datatype State = State(
    options: Options, maxLoad: int, now: int,
    writes: seq<Write>, pending: set<Version>, entry: Entry, loads: map<LoadId, Load>)

  datatype Action =
    | Tick(now: int)
    | WriteRow(row: Row)
    | Delete(version: Version)
    | Read(l: LoadId)
    | Fill(l: LoadId, ttl: int)
    | Forget(l: LoadId)

  function Latest(s: State): Version
    requires s.writes != []
  {
    |s.writes| - 1
  }

  function Current(s: State): Row { if s.writes == [] then Missing else s.writes[|s.writes| - 1].row }

  /** `ttlWithJitter` for a product, `MissTTL` for the not-found placeholder. */
  predicate TtlOk(o: Options, row: Row, ttl: int) {
    match row
    case Missing => ttl == o.missTtl
    case Product(_) => if o.ttlJitter <= 0 then ttl == o.ttl else o.ttl <= ttl < o.ttl + o.ttlJitter
  }

  /** The TTL a fill uses; `draw` is the random number below `ttlJitter`. */
  function TtlFor(o: Options, row: Row, draw: int): (ttl: int)
    requires 0 <= draw && (o.ttlJitter > 0 ==> draw < o.ttlJitter)
    ensures TtlOk(o, row, ttl) && ttl <= MaxTtl(o)
    ensures row == Missing ==> ttl == o.missTtl
    ensures row != Missing ==> o.ttl <= ttl && (if o.ttlJitter <= 0 then ttl == o.ttl else ttl < o.ttl + o.ttlJitter)
  {
    if row == Missing then o.missTtl else if o.ttlJitter <= 0 then o.ttl else o.ttl + draw
  }

  function MaxTtl(o: Options): int {
    var product := if o.ttlJitter <= 0 then o.ttl else o.ttl + o.ttlJitter - 1;
    if o.missTtl > product then o.missTtl else product
  }

  predicate Enabled(s: State, a: Action) {
    match a
    case Tick(now) => s.now <= now
    case WriteRow(_) => true
    case Delete(v) => v in s.pending
    case Read(l) => l !in s.loads && s.writes != []
    case Fill(l, ttl) =>
      l in s.loads && s.loads[l].version < |s.writes| && TtlOk(s.options, s.writes[s.loads[l].version].row, ttl)
    case Forget(l) => l in s.loads
  }

  function Next(s: State, a: Action): State
    requires Enabled(s, a)
  {
    match a
    case Tick(now) => s.(now := now)
    case WriteRow(row) => s.(writes := s.writes + [Write(row, s.now)], pending := s.pending + {|s.writes|})
    case Delete(v) => s.(entry := Empty, pending := s.pending - {v})
    case Read(l) => s.(loads := s.loads[l := Load(Latest(s), s.now)])
    case Fill(l, ttl) =>
      var load := s.loads[l];
      s.(entry := Filled(load.version, load.readAt, s.now + ttl, (set v: Version | v < |s.writes| && v !in s.pending)),
         loads := s.loads - {l})
    case Forget(l) => s.(loads := s.loads - {l})
  }

  ghost predicate Step(s: State, t: State) {
    exists a :: Enabled(s, a) && t == Next(s, a)
  }

  ghost predicate Init(s: State) {
    && |s.writes| == 1 && s.writes[0].at <= s.now && s.pending == {} && s.entry == Empty && s.loads == map[]
    && s.options.ttl >= 1 && s.options.missTtl >= 1 && s.maxLoad >= 0
  }

  /** `GET` finds the entry. */
  predicate Hit(s: State) { s.entry.Filled? && s.now < s.entry.expires }

  /** Version `v` was the row at instant `at`. */
  ghost predicate WasRow(s: State, v: Version, at: int) {
    v < |s.writes| && s.writes[v].at <= at <= s.now && (v + 1 < |s.writes| ==> at <= s.writes[v + 1].at)
  }

  // ----- coherence, in every run

  ghost predicate LoadOk(s: State, l: LoadId) {
    l in s.loads ==> WasRow(s, s.loads[l].version, s.loads[l].readAt)
  }

  ghost predicate EntryOk(s: State) {
    s.entry.Filled? ==>
      && WasRow(s, s.entry.version, s.entry.readAt)
      && forall v :: s.entry.version < v < |s.writes| ==> v in s.pending || v in s.entry.deletedBefore
  }

  ghost predicate RowsOk(s: State) {
    && s.writes != []
    && (forall v :: 0 <= v < |s.writes| ==> s.writes[v].at <= s.now)
    && (forall v, w :: 0 <= v <= w < |s.writes| ==> s.writes[v].at <= s.writes[w].at)
    && (forall v :: v in s.pending ==> v < |s.writes|)
  }

  ghost predicate Inv(s: State) {
    RowsOk(s) && (forall l :: LoadOk(s, l)) && EntryOk(s)
  }

  lemma RowsStayOk(s: State, a: Action)
    requires RowsOk(s) && Enabled(s, a)
    ensures RowsOk(Next(s, a))
  {
  }

  /** What was the row at an instant stays so. */
  lemma WasRowPersists(s: State, a: Action, v: Version, at: int)
    requires RowsOk(s) && Enabled(s, a) && WasRow(s, v, at)
    ensures WasRow(Next(s, a), v, at)
  {
    if a.WriteRow? { assert Next(s, a).writes[v] == s.writes[v]; }
  }

  lemma LoadStaysOk(s: State, a: Action, l: LoadId)
    requires RowsOk(s) && Enabled(s, a) && LoadOk(s, l)
    ensures LoadOk(Next(s, a), l)
  {
    if l in s.loads { WasRowPersists(s, a, s.loads[l].version, s.loads[l].readAt); }
  }

  lemma EntryStaysOk(s: State, a: Action)
    requires RowsOk(s) && Enabled(s, a) && EntryOk(s) && (a.Fill? ==> LoadOk(s, a.l))
    ensures EntryOk(Next(s, a))
  {
    if a.Fill? {
      WasRowPersists(s, a, s.loads[a.l].version, s.loads[a.l].readAt);
    } else if s.entry.Filled? {
      WasRowPersists(s, a, s.entry.version, s.entry.readAt);
    }
  }

  lemma StepKeepsInv(s: State, a: Action)
    requires Inv(s) && Enabled(s, a)
    ensures Inv(Next(s, a))
  {
    RowsStayOk(s, a);
    forall l ensures LoadOk(Next(s, a), l) {
      assert LoadOk(s, l);
      LoadStaysOk(s, a, l);
    }
    if a.Fill? { assert LoadOk(s, a.l); }
    EntryStaysOk(s, a);
  }

  /**
   * A cached value is an old row only for a reason: every write it misses is either between its database
   * write and its cache delete, or its delete ran before this fill, whose load had read before that write.
   */
  lemma StaleOnlyForAReason(s: State, t: State)
    requires Init(s) && Reaches(Step, s, t) && t.entry.Filled?
    ensures Inv(t) && t.entry.version < |t.writes|
    ensures forall v :: t.entry.version < v < |t.writes| ==>
      (v in t.pending || v in t.entry.deletedBefore) && t.entry.readAt <= t.writes[v].at
  {
    RunIsCoherent(s, t);
    assert EntryOk(t);
  }

  lemma RunIsCoherent(s: State, t: State)
    requires Init(s) && Reaches(Step, s, t)
    ensures Inv(t)
  {
    forall x, y | Inv(x) && Step(x, y) ensures Inv(y) {
      var a :| Enabled(x, a) && y == Next(x, a);
      StepKeepsInv(x, a);
    }
    Invariant(Step, Inv, s, t);
  }

  lemma Take(s: State, t: State, a: Action, u: State)
    requires Reaches(Step, s, t) && Enabled(t, a) && u == Next(t, a)
    ensures Reaches(Step, s, u)
  {
    Extend(Step, s, t, u);
  }

  /** The second reason is real: a load overtaken by a whole update leaves an old row with no delete to come. */
  lemma OvertakenLoadLeavesOldRow()
    ensures exists s, t ::
      Init(s) && Reaches(Step, s, t) && Hit(t) && t.pending == {} && t.entry.version < |t.writes| - 1
  {
    var s := State(Options(9, 0, 9), 9, 0, [Write(Product(1), 0)], {}, Empty, map[]);
    var s1 := s.(loads := map[0 := Load(0, 0)]);
    var s2 := s1.(writes := [Write(Product(1), 0), Write(Product(2), 0)], pending := {1});
    var s3 := s2.(pending := {});
    var s4 := Next(s3, Fill(0, 9));
    Stay(Step, s);
    Take(s, s, Read(0), s1);
    assert s1.writes + [Write(Product(2), 0)] == s2.writes;
    Take(s, s1, WriteRow(Product(2)), s2);
    Take(s, s2, Delete(1), s3);
    Take(s, s3, Fill(0, 9), s4);
  }

  // ----- bounded staleness

  /** Loads that fill do so within `maxLoad` of their read. */
  ghost predicate PromptStep(s: State, t: State) {
    exists a :: Enabled(s, a) && t == Next(s, a) && (a.Fill? ==> s.now - s.loads[a.l].readAt <= s.maxLoad)
  }

  ghost predicate Bounded(s: State) {
    Inv(s) && (s.entry.Filled? ==> s.entry.expires <= s.entry.readAt + s.maxLoad + MaxTtl(s.options))
  }

  /**
   * Whoever writes the row, with or without deleting: what a hit returns was the row less than the largest TTL
   * plus the load time ago.
   */
  lemma HitsAreRecent(s: State, t: State)
    requires Init(s) && Reaches(PromptStep, s, t)
    ensures Bounded(t)
    ensures Hit(t) ==>
      WasRow(t, t.entry.version, t.entry.readAt) && t.now - t.entry.readAt < t.maxLoad + MaxTtl(t.options)
  {
    forall x, y | Bounded(x) && PromptStep(x, y) ensures Bounded(y) { StepStaysBounded(x, y); }
    Invariant(PromptStep, Bounded, s, t);
  }

  lemma StepStaysBounded(s: State, t: State)
    requires Bounded(s) && PromptStep(s, t)
    ensures Bounded(t)
  {
    var a :| Enabled(s, a) && t == Next(s, a) && (a.Fill? ==> s.now - s.loads[a.l].readAt <= s.maxLoad);
    StepKeepsInv(s, a);
  }
}

/** `Get`, `loadAndFill` and `UpdateStock` as code. */
module ProductCacheCode {
  import opened Common
  import opened Runs
  import opened ProductCache

  class Cache {
    var s: State
    ghost var origin: State

    ghost predicate Valid()
      reads this
    {
      Init(origin) && Reaches(PromptStep, origin, s)
    }

    constructor (s0: State)
      requires Init(s0)
      ensures Valid() && s == origin == s0
    {
      s, origin := s0, s0;
      new;
      Stay(PromptStep, s);
    }

    /** Load `l` is running and has its time. */
    ghost predicate Loading(l: LoadId, load: Load)
      reads this
    {
      l in s.loads && s.loads[l] == load && s.now - load.readAt <= s.maxLoad
    }

    ghost predicate SameConfig(o: State)
      reads this
    {
      s.options == o.options && s.maxLoad == o.maxLoad && o.now <= s.now && o.writes <= s.writes
    }

    /** Any prompt run of the others; load `l` is not forgotten and gets its answer within `maxLoad`. */
    method Interfere(ghost l: LoadId, ghost load: Load)
      requires Loading(l, load)
      modifies this`s
      ensures Reaches(PromptStep, old(s), s) && Loading(l, load) && SameConfig(old(s))
    {
      Stay(PromptStep, s);
    }

    method Others(ghost l: LoadId, ghost load: Load)
      requires Valid() && Loading(l, load)
      modifies this`s
      ensures Valid() && Loading(l, load) && SameConfig(old(s))
    {
      Interfere(l, load);
      Concat(PromptStep, origin, old(s), s);
    }

    method Do(a: Action)
      requires Valid() && Enabled(s, a)
      requires a.Fill? ==> s.now - s.loads[a.l].readAt <= s.maxLoad
      modifies this`s
      ensures Valid() && s == Next(old(s), a)
    {
      assert PromptStep(s, Next(s, a));
      Extend(PromptStep, origin, s, Next(s, a));
      s := Next(s, a);
    }

    /** `version` was the row at `readAt`, and says `row`. */
    ghost predicate Was(row: Row, version: Version, readAt: int)
      reads this
    {
      WasRow(s, version, readAt) && s.writes[version].row == row
    }

    predicate DrawOk(draw: int)
      reads this
    {
      0 <= draw && (s.options.ttlJitter > 0 ==> draw < s.options.ttlJitter)
    }

    /** The cache has just been filled with this reading, a found row for the jittered TTL, a missing one for less. */
    ghost predicate FilledWith(row: Row, version: Version, readAt: int, draw: int)
      reads this
    {
      && s.entry.Filled? && s.entry.version == version && s.entry.readAt == readAt
      && s.entry.expires - s.now ==
        if row == Missing then s.options.missTtl
        else if s.options.ttlJitter <= 0 then s.options.ttl
        else s.options.ttl + draw
    }

    /**
     * Read the row, then fill. `dbOk` false: the database does not answer. A fill Redis refuses (`redisOk`
     * false) does not fail the load.
     */
    method LoadAndFill(l: LoadId, draw: int, dbOk: bool, redisOk: bool)
      returns (found: Option<Row>, ghost version: Version, ghost readAt: int)
      requires Valid() && l !in s.loads && DrawOk(draw)
      modifies this`s
      ensures Valid() && SameConfig(old(s)) && l !in s.loads
      ensures found.Some? <==> dbOk
      ensures dbOk ==> Was(found.value, version, readAt) && old(s.now) <= readAt && s.now - readAt <= s.maxLoad
      ensures dbOk ==> |old(s.writes)| - 1 <= version
      ensures dbOk && redisOk ==> FilledWith(found.value, version, readAt, draw)
      ensures !dbOk ==> s == old(s)
    {
      if !dbOk { return None, 0, 0; }
      HitsAreRecent(origin, s);
      ConfigOk();
      version, readAt := Latest(s), s.now;
      Do(Read(l));
      HitsAreRecent(origin, s);
      var row := s.writes[s.loads[l].version].row;
      Others(l, Load(version, readAt));
      HitsAreRecent(origin, s);
      assert LoadOk(s, l);
      if redisOk {
        Do(Fill(l, TtlFor(s.options, row, draw)));
      } else {
        Do(Forget(l));
      }
      found := Some(row);
    }

    /**
     * The read path. `getOk` false: Redis fails the GET, and so does the call. On a miss, after which anything
     * may happen, the call shares load `join` if that is still running, or else loads by itself, as load `l`.
     * Its own load fills the cache unless Redis refuses.
     * What it returns was the row less than TTL + jitter, or the miss TTL if that is larger, plus one load
     * time ago.
     */
    method Get(l: LoadId, join: Option<LoadId>, draw: int, getOk: bool, dbOk: bool, redisOk: bool)
      returns (found: Option<Row>, ghost version: Version, ghost readAt: int)
      requires Valid() && l !in s.loads && DrawOk(draw)
      modifies this`s
      ensures Valid() && SameConfig(old(s))
      ensures found.Some? <==> getOk && (dbOk || (old(s.entry).Filled? && old(s.now) < old(s.entry).expires))
      ensures found.Some? ==> Was(found.value, version, readAt) && s.now - readAt < s.maxLoad + MaxTtl(s.options)
      ensures !getOk ==> s == old(s)
      ensures getOk && old(s.entry).Filled? && old(s.now) < old(s.entry).expires ==>
        s == old(s) && version == s.entry.version && readAt == s.entry.readAt
      ensures getOk && !(old(s.entry).Filled? && old(s.now) < old(s.entry).expires) && join.None? && dbOk ==>
        |old(s.writes)| - 1 <= version && (redisOk ==> FilledWith(found.value, version, readAt, draw))
    {
      if !getOk { return None, 0, 0; }
      HitsAreRecent(origin, s);
      ConfigOk();
      if Hit(s) {
        return Some(s.writes[s.entry.version].row), s.entry.version, s.entry.readAt;
      }
      BetweenLoads(l);
      ConfigOk();
      if join.Some? && join.value in s.loads && s.now - s.loads[join.value].readAt <= s.maxLoad {
        found, version, readAt := JoinLoad(join.value, dbOk);
      } else {
        found, version, readAt := LoadAndFill(l, draw, dbOk, redisOk);
      }
    }

    /** Wait for a running load and share its answer. */
    method JoinLoad(j: LoadId, dbOk: bool) returns (found: Option<Row>, ghost version: Version, ghost readAt: int)
      requires Valid() && j in s.loads && s.now - s.loads[j].readAt <= s.maxLoad
      modifies this`s
      ensures Valid() && SameConfig(old(s))
      ensures found.Some? <==> dbOk
      ensures dbOk ==> Was(found.value, version, readAt) && s.now - readAt <= s.maxLoad
    {
      var load := s.loads[j];
      Others(j, load);
      if !dbOk { return None, 0, 0; }
      HitsAreRecent(origin, s);
      assert LoadOk(s, j);
      found, version, readAt := Some(s.writes[load.version].row), load.version, load.readAt;
    }

    /**
     * Warm-up over `ids`, of which only `product` is this product. A missing product does not stop it, an
     * error of the database does; `answers` says, id by id, whether the database answers.
     */
    method Warm(product: nat, ids: seq<nat>, answers: seq<bool>, l: LoadId, draw: int)
      returns (ok: bool, ghost fills: seq<Version>)
      requires Valid() && l !in s.loads && DrawOk(draw) && |answers| == |ids|
      modifies this`s
      ensures Valid() && SameConfig(old(s))
      ensures ok <==> forall i :: 0 <= i < |ids| ==> answers[i]
      ensures ok && product in ids ==> fills != []
      ensures forall k :: 0 <= k < |fills| ==> |old(s.writes)| - 1 <= fills[k] < |s.writes|
    {
      fills := [];
      for i := 0 to |ids|
        invariant Valid() && l !in s.loads && SameConfig(old(s))
        invariant forall k :: 0 <= k < i ==> answers[k]
        invariant product in ids[..i] ==> fills != []
        invariant forall k :: 0 <= k < |fills| ==> |old(s.writes)| - 1 <= fills[k] < |s.writes|
      {
        if ids[i] == product {
          var found, version, _ := LoadAndFill(l, draw, answers[i], true);
          if found.None? { return false, fills; }
          fills := fills + [version];
        } else {
          if !answers[i] { return false, fills; }
          BetweenLoads(l);
        }
      }
      assert ids[..|ids|] == ids;
      ok := true;
    }

    method BetweenLoads(ghost l: LoadId)
      requires Valid() && l !in s.loads
      modifies this`s
      ensures Valid() && l !in s.loads && SameConfig(old(s))
    {
      InterfereWhileIdle(l);
      Concat(PromptStep, origin, old(s), s);
    }

    method InterfereWhileIdle(ghost l: LoadId)
      requires l !in s.loads
      modifies this`s
      ensures Reaches(PromptStep, old(s), s) && l !in s.loads && SameConfig(old(s))
    {
      Stay(PromptStep, s);
    }

    lemma ConfigOk()
      requires Valid()
      ensures s.options.ttl >= 1 && s.options.missTtl >= 1 && s.maxLoad >= 0
    {
      forall x, y, z | Any(y) && PromptStep(y, z) && SameOptions(z, x) ensures SameOptions(y, x) {}
      Relation(PromptStep, Any, SameOptions, origin, s);
    }

    /**
     * Write the row first, delete the cached copy after. `dbOk` is the database's answer, `delete` what becomes
     * of the DEL. The row is written as soon as the database agrees, whatever becomes of the DEL.
     */
    method UpdateStock(stock: int, dbOk: bool, delete: Answer) returns (ok: bool)
      requires Valid()
      modifies this`s
      ensures Valid()
      ensures ok <==> dbOk && Current(old(s)) != Missing && delete == Answered
      ensures !dbOk || Current(old(s)) == Missing ==> s == old(s)
      ensures dbOk && Current(old(s)) != Missing ==>
        old(s.writes) + [Write(Product(stock), old(s.now))] <= s.writes
      ensures dbOk && Current(old(s)) != Missing && delete != NoEffect ==> s.entry == Empty
      ensures dbOk && Current(old(s)) != Missing ==> (|old(s.writes)| in s.pending <==> delete == NoEffect)
    {
      HitsAreRecent(origin, s);
      if !dbOk || Current(s) == Missing { return false; }
      var v := |s.writes|;
      Do(WriteRow(Product(stock)));
      DuringUpdate(v);
      if delete != NoEffect { Do(Delete(v)); }
      ok := delete == Answered;
    }

    /** Others run between the two steps of an update; nobody else deletes for it. */
    method DuringUpdate(ghost v: Version)
      requires Valid() && v in s.pending
      modifies this`s
      ensures Valid() && v in s.pending && old(s.writes) <= s.writes
    {
      InterfereWithUpdate(v);
      Concat(PromptStep, origin, old(s), s);
    }

    method InterfereWithUpdate(ghost v: Version)
      requires v in s.pending
      modifies this`s
      ensures Reaches(PromptStep, old(s), s) && v in s.pending && old(s.writes) <= s.writes
    {
      Stay(PromptStep, s);
    }
  }

  ghost predicate SameOptions(s: State, t: State) { s.options == t.options && s.maxLoad == t.maxLoad }
}
