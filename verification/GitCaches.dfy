/**
 * The two short-lived caches of git results, one entry per repository root: a result lives for its TTL, a miss
 * first trims the map to its cap, an invalidation deletes. Times are in nanoseconds.
 */
module GitCaches {
  import opened Wrappers

  const SECOND: nat := 1_000_000_000

  const STATUS_TTL: nat := 10 * SECOND

  const IGNORED_TTL: nat := 30 * SECOND

  const MAX_SIZE: nat := 100

  // ------------------------------------------------------------------------------------------------
  // Eviction
  // ------------------------------------------------------------------------------------------------

  datatype Entry<T> = Entry(value: T, expiry: int)

  /** `kept` is `m` without its earliest-expiring entries, as many as it exceeds `max` by. */
  ghost predicate KeepsLatest<T>(m: map<string, Entry<T>>, kept: map<string, Entry<T>>, max: nat) {
    && kept.Keys <= m.Keys && (forall k | k in kept :: kept[k] == m[k])
    && |kept| == (if |m| <= max then |m| else max)
    && forall d, k | d in m && d !in kept && k in kept :: m[d].expiry <= m[k].expiry
  }

  ghost predicate ByExpiry<T>(m: map<string, Entry<T>>, keys: seq<string>) {
    && (forall k | k in keys :: k in m)
    && (forall i, j | 0 <= i < j < |keys| :: keys[i] != keys[j] && m[keys[i]].expiry <= m[keys[j]].expiry)
  }

  lemma InsertedMembers(keys: seq<string>, key: string, i: nat)
    requires i <= |keys|
    ensures forall k :: k in keys[..i] + [key] + keys[i..] <==> k == key || k in keys
  {
    assert keys == keys[..i] + keys[i..];
  }

  lemma InsertedInOrder<T>(m: map<string, Entry<T>>, keys: seq<string>, key: string, i: nat)
    requires ByExpiry(m, keys) && key in m && key !in keys && i <= |keys|
    requires forall j | 0 <= j < i :: m[keys[j]].expiry <= m[key].expiry
    requires forall j | i <= j < |keys| :: m[key].expiry <= m[keys[j]].expiry
    ensures ByExpiry(m, keys[..i] + [key] + keys[i..])
  {
    var r := keys[..i] + [key] + keys[i..];
    InsertedMembers(keys, key, i);
    forall a, b | 0 <= a < b < |r| ensures r[a] != r[b] && m[r[a]].expiry <= m[r[b]].expiry {
      var x := if a < i then a else a - 1;
      var y := if b < i then b else b - 1;
      assert a != i ==> r[a] == keys[x] && keys[x] in keys;
      assert b != i ==> r[b] == keys[y] && keys[y] in keys;
    }
  }

  /** One key into its place among the sorted ones, after those that expire no later. */
  method Insert<T>(m: map<string, Entry<T>>, keys: seq<string>, key: string) returns (r: seq<string>)
    requires ByExpiry(m, keys) && key in m && key !in keys
    ensures ByExpiry(m, r) && |r| == |keys| + 1
    ensures forall k :: k in r <==> k == key || k in keys
  {
    var i := |keys|;
    while i > 0 && m[keys[i - 1]].expiry > m[key].expiry
      invariant 0 <= i <= |keys|
      invariant i < |keys| ==> m[keys[i]].expiry > m[key].expiry
    {
      i := i - 1;
    }
    InsertedMembers(keys, key, i);
    InsertedInOrder(m, keys, key, i);
    r := keys[..i] + [key] + keys[i..];
  }

  method SortedByExpiry<T>(m: map<string, Entry<T>>) returns (keys: seq<string>)
    ensures ByExpiry(m, keys) && |keys| == |m|
    ensures forall k :: k in keys <==> k in m
  {
    keys := [];
    var todo := m.Keys;
    while todo != {}
      invariant todo <= m.Keys && ByExpiry(m, keys) && |keys| + |todo| == |m|
      invariant forall k :: k in keys <==> k in m && k !in todo
      decreases |todo|
    {
      var key :| key in todo;
      keys := Insert(m, keys, key);
      todo := todo - {key};
    }
  }

  method EvictOldest<T>(m: map<string, Entry<T>>, max: nat) returns (kept: map<string, Entry<T>>)
    ensures KeepsLatest(m, kept, max)
  {
    if |m| <= max {
      return m;
    }
    var keys := SortedByExpiry(m);
    kept := m;
    for i := 0 to |keys| - max
      invariant kept.Keys <= m.Keys && |kept| == |m| - i
      invariant forall k | k in kept :: kept[k] == m[k]
      invariant forall j | 0 <= j < |keys| :: keys[j] in kept <==> i <= j
    {
      kept := kept - {keys[i]};
    }
    DropsTheEarliest(m, kept, keys, |keys| - max);
  }

  lemma DropsTheEarliest<T>(m: map<string, Entry<T>>, kept: map<string, Entry<T>>, keys: seq<string>, n: nat)
    requires ByExpiry(m, keys) && n <= |keys| && (forall k :: k in keys <==> k in m) && kept.Keys <= m.Keys
    requires forall j | 0 <= j < |keys| :: keys[j] in kept <==> n <= j
    ensures forall d, k | d in m && d !in kept && k in kept :: m[d].expiry <= m[k].expiry
  {
    forall d, k | d in m && d !in kept && k in kept ensures m[d].expiry <= m[k].expiry {
      assert d in keys && k in keys;
      var i, j :| 0 <= i < |keys| && keys[i] == d && 0 <= j < |keys| && keys[j] == k;
      assert i < n <= j;
    }
  }

  // ------------------------------------------------------------------------------------------------
  // Readers, runs and invalidations in any interleaving
  // ------------------------------------------------------------------------------------------------

  /**
   * One git run: when it started, how many invalidations of its key came before that, and, once it is stored, how
   * many came before that.
   */
  datatype Snapshot = Snapshot(start: int, begun: nat, stored: nat)

  datatype Stage =
    | Start
    | Called(now: int)                        // the clock is read before the lock is taken
    | Missed(now: int)
    | Running(now: int, start: int, begun: nat)
    | Returned(now: int, snapshot: Snapshot, hit: bool, against: nat)
    | Failed

  datatype Thread = Thread(key: string, stage: Stage)

  /** `invalidated` counts the invalidations of each key and `cleared` those of the whole cache. */
  datatype State = State(
    ttl: nat,
    now: int,
    cache: map<string, Entry<Snapshot>>,
    invalidated: map<string, nat>,
    cleared: nat,
    threads: seq<Thread>)

  ghost predicate Init(s: State) {
    s.cache == map[] && s.ttl > 0 && forall i | 0 <= i < |s.threads| :: s.threads[i].stage.Start?
  }

  function Count(s: State, key: string): nat {
    s.cleared + if key in s.invalidated then s.invalidated[key] else 0
  }

  function Goto(s: State, i: nat, stage: Stage): State
    requires i < |s.threads|
  {
    s.(threads := s.threads[i := s.threads[i].(stage := stage)])
  }

  predicate Fresh(s: State, key: string, now: int) {
    key in s.cache && now < s.cache[key].expiry
  }

  /** `kept` is what an eviction may leave, and `ok` whether the git run succeeds. */
  ghost function Step(s: State, i: nat, kept: map<string, Entry<Snapshot>>, ok: bool): State
    requires i < |s.threads|
  {
    var t := s.threads[i];
    match t.stage
    case Start => Goto(s, i, Called(s.now))
    case Called(now) =>
      if Fresh(s, t.key, now) then Goto(s, i, Returned(now, s.cache[t.key].value, true, Count(s, t.key)))
      else if KeepsLatest(s.cache, kept, MAX_SIZE) then Goto(s.(cache := kept), i, Missed(now))
      else s
    case Missed(now) => Goto(s, i, Running(now, s.now, Count(s, t.key)))
    case Running(now, start, begun) =>
      if !ok then Goto(s, i, Failed)
      else
        var snapshot := Snapshot(start, begun, Count(s, t.key));
        Goto(s.(cache := s.cache[t.key := Entry(snapshot, now + s.ttl)]), i, Returned(now, snapshot, false, Count(s, t.key)))
    case _ => s
  }

  datatype Action =
    | Move(i: nat, kept: map<string, Entry<Snapshot>>, ok: bool)
    | Tick(dt: nat)
    | Invalidate(key: string)
    | InvalidateAll

  ghost function Next(s: State, a: Action): (t: State)
    ensures |t.threads| == |s.threads|
  {
    match a
    case Move(i, kept, ok) => if i < |s.threads| then Step(s, i, kept, ok) else s
    case Tick(dt) => s.(now := s.now + dt)
    case Invalidate(key) =>
      var before := if key in s.invalidated then s.invalidated[key] else 0;
      s.(cache := s.cache - {key}, invalidated := s.invalidated[key := before + 1])
    case InvalidateAll => s.(cache := map[], cleared := s.cleared + 1)
  }

  ghost function Run(s: State, actions: seq<Action>): (t: State)
    ensures |t.threads| == |s.threads|
    decreases |actions|
  {
    if actions == [] then s else Next(Run(s, actions[..|actions| - 1]), actions[|actions| - 1])
  }

  predicate EntryInv(s: State, key: string, e: Entry<Snapshot>) {
    && e.value.begun <= e.value.stored == Count(s, key)
    && e.expiry <= e.value.start + s.ttl && e.value.start <= s.now
  }

  predicate ThreadInv(s: State, t: Thread) {
    match t.stage
    case Called(now) => now <= s.now
    case Missed(now) => now <= s.now
    case Running(now, start, begun) => now <= start <= s.now && begun <= Count(s, t.key)
    case Returned(now, snapshot, hit, against) =>
      && snapshot.begun <= snapshot.stored == against
      && (hit ==> now < snapshot.start + s.ttl)
      && (!hit ==> now <= snapshot.start)
    case _ => true
  }

  ghost predicate Inv(s: State) {
    && (forall key | key in s.cache :: EntryInv(s, key, s.cache[key]))
    && (forall i | 0 <= i < |s.threads| :: ThreadInv(s, s.threads[i]))
  }

  /** A call that moves changes only its own stage and the cache. */
  lemma MoveFrame(s: State, t: State, i: nat)
    requires Inv(s) && i < |s.threads| && |t.threads| == |s.threads|
    requires t == s.(cache := t.cache, threads := s.threads[i := t.threads[i]])
    requires forall key | key in t.cache :: (key in s.cache && t.cache[key] == s.cache[key]) || EntryInv(s, key, t.cache[key])
    requires ThreadInv(s, t.threads[i])
    ensures Inv(t)
  {
    forall key | key in t.cache ensures EntryInv(t, key, t.cache[key]) {
      assert key in s.cache ==> EntryInv(s, key, s.cache[key]);
    }
    forall j | 0 <= j < |t.threads| ensures ThreadInv(t, t.threads[j]) {
      assert ThreadInv(s, s.threads[j]);
    }
  }

  lemma LookupKeepsInv(s: State, i: nat, kept: map<string, Entry<Snapshot>>, ok: bool)
    requires Inv(s) && i < |s.threads| && s.threads[i].stage.Called?
    ensures Inv(Step(s, i, kept, ok))
  {
    var key := s.threads[i].key;
    assert ThreadInv(s, s.threads[i]);
    assert key in s.cache ==> EntryInv(s, key, s.cache[key]);
    MoveFrame(s, Step(s, i, kept, ok), i);
  }

  lemma StoreKeepsInv(s: State, i: nat, kept: map<string, Entry<Snapshot>>, ok: bool)
    requires Inv(s) && i < |s.threads| && s.threads[i].stage.Running?
    ensures Inv(Step(s, i, kept, ok))
  {
    assert ThreadInv(s, s.threads[i]);
    MoveFrame(s, Step(s, i, kept, ok), i);
  }

  lemma MoveKeepsInv(s: State, i: nat, kept: map<string, Entry<Snapshot>>, ok: bool)
    requires Inv(s) && i < |s.threads|
    ensures Inv(Step(s, i, kept, ok)) && Step(s, i, kept, ok).ttl == s.ttl
  {
    if s.threads[i].stage.Called? {
      LookupKeepsInv(s, i, kept, ok);
    } else if s.threads[i].stage.Running? {
      StoreKeepsInv(s, i, kept, ok);
    } else {
      assert ThreadInv(s, s.threads[i]);
      MoveFrame(s, Step(s, i, kept, ok), i);
    }
  }

  lemma WorldKeepsInv(s: State, a: Action)
    requires Inv(s) && !a.Move?
    ensures Inv(Next(s, a)) && Next(s, a).ttl == s.ttl
  {
    var t := Next(s, a);
    forall key | key in t.cache ensures EntryInv(t, key, t.cache[key]) {
      assert EntryInv(s, key, s.cache[key]);
    }
    forall j | 0 <= j < |t.threads| ensures ThreadInv(t, t.threads[j]) {
      assert ThreadInv(s, s.threads[j]);
    }
  }

  lemma {:induction false} RunKeepsInv(s: State, actions: seq<Action>)
    requires Init(s)
    ensures Inv(Run(s, actions)) && Run(s, actions).ttl == s.ttl
    decreases |actions|
  {
    if actions != [] {
      var front, last := actions[..|actions| - 1], actions[|actions| - 1];
      RunKeepsInv(s, front);
      if last.Move? {
        if last.i < |s.threads| {
          MoveKeepsInv(Run(s, front), last.i, last.kept, last.ok);
        }
      } else {
        WorldKeepsInv(Run(s, front), last);
      }
    }
  }

  /** A hit was computed by a run that started less than one TTL before the reader looked at the clock. */
  lemma HitsAreYoungerThanTheTTL(s: State, actions: seq<Action>, i: nat)
    requires Init(s) && i < |s.threads|
    ensures var t := Run(s, actions).threads[i].stage;
            t.Returned? ==> t.now < t.snapshot.start + s.ttl
  {
    RunKeepsInv(s, actions);
    assert ThreadInv(Run(s, actions), Run(s, actions).threads[i]);
  }

  /**
   * The caches carry no generation: what a reader gets was stored after every invalidation of its key so far, but
   * its run may have begun before the latest of them, namely when that one came between the run's start and store.
   */
  lemma StoredAfterEveryInvalidation(s: State, actions: seq<Action>, i: nat)
    requires Init(s) && i < |s.threads|
    ensures var t := Run(s, actions).threads[i].stage;
            t.Returned? ==> t.snapshot.stored == t.against && t.snapshot.begun <= t.snapshot.stored
  {
    RunKeepsInv(s, actions);
    assert ThreadInv(Run(s, actions), Run(s, actions).threads[i]);
  }

  /** An invalidation takes the key's entry and is counted for it alone, one of the whole cache for every key. */
  lemma InvalidationsTakeEffect(s: State, key: string, other: string)
    ensures var t := Next(s, Invalidate(key));
            && key !in t.cache && Count(t, key) == Count(s, key) + 1
            && (other != key ==> Count(t, other) == Count(s, other)
                                 && (other in t.cache <==> other in s.cache)
                                 && (other in s.cache ==> t.cache[other] == s.cache[other]))
    ensures var t := Next(s, InvalidateAll); t.cache == map[] && Count(t, other) == Count(s, other) + 1
  {
  }

  function TwoReaders(): State {
    State(STATUS_TTL, 0, map[], map[], 0, [Thread("r", Start), Thread("r", Start)])
  }

  function Goes(i: nat): Action {
    Move(i, map[], true)
  }

  /** The first reader's run is overtaken by an invalidation, stores all the same, and the second reader hits it. */
  function OvertakenRun(): seq<Action> {
    [] + [Goes(0)] + [Goes(0)] + [Goes(0)] + [Invalidate("r")] + [Goes(0)] + [Goes(1)] + [Goes(1)]
  }

  lemma RunAppend(s: State, before: seq<Action>, a: Action)
    ensures Run(s, before + [a]) == Next(Run(s, before), a)
  {
    assert (before + [a])[..|before + [a]| - 1] == before;
  }

  lemma OvertakenRunIsServed()
    ensures Init(TwoReaders())
    ensures var t := Run(TwoReaders(), OvertakenRun()).threads[1].stage;
            t.Returned? && t.hit && t.snapshot.begun < t.against
  {
    var s := TwoReaders();
    var p: seq<Action> := [];
    RunAppend(s, p, Goes(0));
    assert Run(s, p + [Goes(0)]).threads == [Thread("r", Called(0)), Thread("r", Start)];
    RunAppend(s, p + [Goes(0)], Goes(0));
    var q := p + [Goes(0)] + [Goes(0)];
    assert KeepsLatest<Snapshot>(map[], map[], MAX_SIZE);
    assert Run(s, q).threads == [Thread("r", Missed(0)), Thread("r", Start)];
    RunAppend(s, q, Goes(0));
    assert Run(s, q + [Goes(0)]).threads == [Thread("r", Running(0, 0, 0)), Thread("r", Start)];
    RunAppend(s, q + [Goes(0)], Invalidate("r"));
    var v := q + [Goes(0)] + [Invalidate("r")];
    RunAppend(s, v, Goes(0));
    assert Run(s, v + [Goes(0)]).cache == map["r" := Entry(Snapshot(0, 0, 1), STATUS_TTL)];
    RunAppend(s, v + [Goes(0)], Goes(1));
    RunAppend(s, v + [Goes(0)] + [Goes(1)], Goes(1));
  }

  // ------------------------------------------------------------------------------------------------
  // Size
  // ------------------------------------------------------------------------------------------------

  /** A miss that has trimmed the cache and may still store. */
  predicate InFlight(t: Thread) {
    t.stage.Missed? || t.stage.Running?
  }

  function Misses(threads: seq<Thread>): nat {
    if threads == [] then 0 else (if InFlight(threads[0]) then 1 else 0) + Misses(threads[1..])
  }

  lemma {:induction false} MissesUpdate(threads: seq<Thread>, i: nat, t: Thread)
    requires i < |threads|
    ensures Misses(threads[i := t]) ==
            Misses(threads) - (if InFlight(threads[i]) then 1 else 0) + (if InFlight(t) then 1 else 0)
    decreases i
  {
    if i > 0 {
      MissesUpdate(threads[1..], i - 1, t);
      assert threads[i := t][1..] == threads[1..][i - 1 := t];
    } else {
      assert threads[i := t][1..] == threads[1..];
    }
  }

  /** At no point of the run are more than `k` misses in flight. */
  ghost predicate AtMost(s: State, actions: seq<Action>, k: nat)
    decreases |actions|
  {
    Misses(Run(s, actions).threads) <= k && (actions == [] || AtMost(s, actions[..|actions| - 1], k))
  }

  /** Entries and misses in flight together: a miss trims before it counts, and a store turns one into the other. */
  ghost predicate Bounded(s: State, k: nat) {
    |s.cache| + Misses(s.threads) <= MAX_SIZE + k
  }

  /** A call that is not in flight trims the cache if it starts a miss, and leaves it alone otherwise. */
  lemma LookupShape(s: State, i: nat, kept: map<string, Entry<Snapshot>>, ok: bool)
    requires i < |s.threads| && !InFlight(s.threads[i])
    ensures var t := Step(s, i, kept, ok);
            && t.threads == s.threads[i := t.threads[i]]
            && if InFlight(t.threads[i]) then |t.cache| <= MAX_SIZE else t.cache == s.cache
  {
  }

  /** A miss in flight grows the cache by at most one, and only as it ends. */
  lemma MissShape(s: State, i: nat, kept: map<string, Entry<Snapshot>>, ok: bool)
    requires i < |s.threads| && InFlight(s.threads[i])
    ensures var t := Step(s, i, kept, ok);
            && t.threads == s.threads[i := t.threads[i]]
            && if InFlight(t.threads[i]) then t.cache == s.cache else |t.cache| <= |s.cache| + 1
  {
  }

  lemma MoveKeepsBound(s: State, i: nat, kept: map<string, Entry<Snapshot>>, ok: bool, k: nat)
    requires Bounded(s, k) && i < |s.threads| && Misses(Step(s, i, kept, ok).threads) <= k
    ensures Bounded(Step(s, i, kept, ok), k)
  {
    if InFlight(s.threads[i]) {
      MissShape(s, i, kept, ok);
    } else {
      LookupShape(s, i, kept, ok);
    }
    MissesUpdate(s.threads, i, Step(s, i, kept, ok).threads[i]);
  }

  lemma WorldKeepsBound(s: State, a: Action, k: nat)
    requires Bounded(s, k) && !a.Move?
    ensures Bounded(Next(s, a), k)
  {
    if a.Invalidate? {
      assert Next(s, a).cache.Keys <= s.cache.Keys;
      SubsetCardinality(Next(s, a).cache.Keys, s.cache.Keys);
      assert |Next(s, a).cache| == |Next(s, a).cache.Keys| && |s.cache| == |s.cache.Keys|;
    }
  }

  lemma SubsetCardinality(a: set<string>, b: set<string>)
    requires a <= b
    ensures |a| <= |b|
  {
    assert b == a + (b - a);
  }

  /** With at most k misses at a time, a cache never holds more than its cap and k. */
  lemma {:induction false} SizeIsBounded(s: State, actions: seq<Action>, k: nat)
    requires Init(s) && AtMost(s, actions, k)
    ensures Bounded(Run(s, actions), k) && |Run(s, actions).cache| <= 100 + k
    decreases |actions|
  {
    if actions != [] {
      var front, last := actions[..|actions| - 1], actions[|actions| - 1];
      SizeIsBounded(s, front, k);
      if last.Move? {
        if last.i < |s.threads| {
          MoveKeepsBound(Run(s, front), last.i, last.kept, last.ok, k);
        }
      } else {
        WorldKeepsBound(Run(s, front), last, k);
      }
    }
  }

  // ------------------------------------------------------------------------------------------------
  // The calls as the backend makes them, with nothing else running
  // ------------------------------------------------------------------------------------------------

  datatype GitError = EmptyRoot | GitFailed

  /** One of the two caches: `canonical` is gitCacheKey, and a nil map is an empty one. */
  class GitCache<T> {
    var entries: map<string, Entry<T>>
    const ttl: nat
    const canonical: string -> string

    constructor (ttl: nat, canonical: string -> string)
      ensures entries == map[] && this.ttl == ttl && this.canonical == canonical
    {
      entries, this.ttl, this.canonical := map[], ttl, canonical;
    }

    predicate Live(key: string, now: int)
      reads this
    {
      key in entries && now < entries[key].expiry
    }

    /** `now` is the clock on entry and `result` what the git run would give. An error is never cached. */
    method Cached(repoRoot: string, now: int, result: Result<T, GitError>) returns (r: Result<T, GitError>)
      modifies this`entries
      ensures repoRoot == "" ==> r == Err(EmptyRoot) && entries == old(entries)
      ensures old(Live(canonical(repoRoot), now)) <==>
        canonical(repoRoot) in old(entries) && now < old(entries)[canonical(repoRoot)].expiry
      ensures repoRoot != "" && old(Live(canonical(repoRoot), now)) ==>
        r == Ok(old(entries)[canonical(repoRoot)].value) && entries == old(entries)
      ensures repoRoot != "" && !old(Live(canonical(repoRoot), now)) ==>
        && r == result
        && exists kept ::
          && KeepsLatest(old(entries), kept, 100)
          && entries == if result.Ok? then kept[canonical(repoRoot) := Entry(result.value, now + ttl)] else kept
      ensures |old(entries)| <= 101 ==> |entries| <= 101
    {
      if repoRoot == "" {
        return Err(EmptyRoot);
      }
      var key := canonical(repoRoot);
      if key in entries && now < entries[key].expiry {
        return Ok(entries[key].value);
      }
      var kept := EvictOldest(entries, MAX_SIZE);
      entries := kept;
      if result.Err? {
        return result;
      }
      entries := entries[key := Entry(result.value, now + ttl)];
      r := result;
    }

    /** However the repository was spelled when it was cached. */
    method Invalidate(repoRoot: string)
      modifies this`entries
      ensures entries == if repoRoot == "" then old(entries) else old(entries) - {canonical(repoRoot)}
      ensures forall other, now | repoRoot != "" && canonical(other) == canonical(repoRoot) :: !Live(canonical(other), now)
    {
      if repoRoot != "" {
        entries := entries - {canonical(repoRoot)};
      }
    }

    method Clear()
      modifies this`entries
      ensures entries == map[]
    {
      entries := map[];
    }
  }

  /** The files whose change alters what git ignores. */
  const IGNORE_RULE_FILES: set<string> := {".gitignore", ".aiignore", ".ignore"}

  /** `base` is filepath.Base. */
  method HasIgnoreRuleChange(changedPaths: seq<string>, base: string -> string) returns (found: bool)
    ensures found <==> exists k :: 0 <= k < |changedPaths| && base(changedPaths[k]) in {".gitignore", ".aiignore", ".ignore"}
  {
    for k := 0 to |changedPaths|
      invariant forall j | 0 <= j < k :: base(changedPaths[j]) !in IGNORE_RULE_FILES
    {
      if base(changedPaths[k]) in IGNORE_RULE_FILES {
        return true;
      }
    }
    found := false;
  }

  /** Any change in the tree drops the status; only a change to the rules drops the ignored paths too. */
  method InvalidateOnWatcher<S, I>(status: GitCache<S>, ignored: GitCache<I>, repoRoot: string,
                                   changedPaths: seq<string>, base: string -> string)
    requires (status as object) != (ignored as object)
    modifies status`entries, ignored`entries
    ensures status.entries ==
            if repoRoot == "" then old(status.entries) else old(status.entries) - {status.canonical(repoRoot)}
    ensures (exists k :: 0 <= k < |changedPaths| && base(changedPaths[k]) in IGNORE_RULE_FILES) && repoRoot != "" ==>
      ignored.entries == old(ignored.entries) - {ignored.canonical(repoRoot)}
    ensures (forall k | 0 <= k < |changedPaths| :: base(changedPaths[k]) !in IGNORE_RULE_FILES) ==>
      ignored.entries == old(ignored.entries)
  {
    if repoRoot == "" {
      return;
    }
    status.Invalidate(repoRoot);
    var rules := HasIgnoreRuleChange(changedPaths, base);
    if rules {
      ignored.Invalidate(repoRoot);
    }
  }
}
