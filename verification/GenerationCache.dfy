/**
 * The generation-tagged listing cache behind ListSkills, ListAgents and ListCommands. A reader notes the
 * generation, looks, and on a miss scans the directories and stores what it found under the generation it noted;
 * an invalidation only bumps the generation, so scans and stores of any age can overlap it.
 */
module GenerationCache {
  import opened Wrappers

  /** The counter is a uint64. */
  const GENERATIONS: nat := 0x1_0000_0000_0000_0000

  /**
   * What a scan found is known by the directory it searched, the version of the disk it began on (it may have read
   * newer files, never older ones), how many invalidations it began after, and how many its reader had noted.
   */
  datatype Listing = Listing(dir: string, disk: nat, after: nat, noted: nat)

  datatype Entry = Entry(listing: Listing, gen: nat, dir: string)

  /** `called` and `noted` count the invalidations when the call began and when it loaded the generation. */
  datatype Stage =
    | Start
    | Called(called: nat)
    | DirRead(called: nat, dir: string)
    | GenLoaded(called: nat, dir: string, noted: nat, gen: nat)
    | Missed(called: nat, dir: string, noted: nat, gen: nat)
    | Scanning(called: nat, dir: string, noted: nat, gen: nat, found: Listing)
    | Returned(called: nat, dir: string, noted: nat, listing: Listing, hit: bool)

  /** A Refresh call invalidates before it lists. */
  datatype Thread = Thread(refresh: bool, stage: Stage)

  /** `announced[k]` is the disk version the k-th invalidation announced. */
  datatype State = State(announced: seq<nat>, gen: nat, disk: nat, dir: string, entry: Option<Entry>, threads: seq<Thread>)

  ghost predicate Init(s: State) {
    && s.announced == [s.disk] && s.gen == 0 && s.entry.None?
    && forall i | 0 <= i < |s.threads| :: s.threads[i].stage.Start?
  }

  /** How many invalidations there have been. */
  function Count(s: State): int {
    |s.announced| - 1
  }

  function Invalidate(s: State): State {
    s.(announced := s.announced + [s.disk], gen := (s.gen + 1) % GENERATIONS)
  }

  predicate Hits(entry: Option<Entry>, gen: nat, dir: string) {
    entry.Some? && entry.value.gen == gen && entry.value.dir == dir
  }

  function Goto(s: State, i: nat, stage: Stage): State
    requires i < |s.threads|
  {
    s.(threads := s.threads[i := s.threads[i].(stage := stage)])
  }

  function Step(s: State, i: nat): State
    requires i < |s.threads| && s.announced != []
  {
    match s.threads[i].stage
    case Start =>
      var t := if s.threads[i].refresh then Invalidate(s) else s;
      Goto(t, i, Called(Count(t)))
    case Called(called) => Goto(s, i, DirRead(called, s.dir))
    case DirRead(called, dir) => Goto(s, i, GenLoaded(called, dir, Count(s), s.gen))
    case GenLoaded(called, dir, noted, gen) =>
      if Hits(s.entry, gen, dir)
      then Goto(s, i, Returned(called, dir, noted, s.entry.value.listing, true))
      else Goto(s, i, Missed(called, dir, noted, gen))
    case Missed(called, dir, noted, gen) =>
      Goto(s, i, Scanning(called, dir, noted, gen, Listing(dir, s.disk, Count(s), noted)))
    case Scanning(called, dir, noted, gen, found) =>
      Goto(s.(entry := Some(Entry(found, gen, dir))), i, Returned(called, dir, noted, found, false))
    case Returned(_, _, _, _, _) => s
  }

  /** Files change, watchers and project switches invalidate, the active project changes, and calls move on. */
  datatype Action =
    | ChangeDisk
    | InvalidateCache
    | SwitchTo(dir: string)
    | Move(i: nat)

  function Next(s: State, a: Action): (t: State)
    requires s.announced != []
    ensures s.announced <= t.announced
  {
    match a
    case ChangeDisk => s.(disk := s.disk + 1)
    case InvalidateCache => Invalidate(s)
    case SwitchTo(dir) => s.(dir := dir)
    case Move(i) => if i < |s.threads| then Step(s, i) else s
  }

  function Run(s: State, actions: seq<Action>): (t: State)
    requires s.announced != []
    ensures s.announced <= t.announced
    decreases |actions|
  {
    if actions == [] then s else Next(Run(s, actions[..|actions| - 1]), actions[|actions| - 1])
  }

  // ------------------------------------------------------------------------------------------------
  // The invariant
  // ------------------------------------------------------------------------------------------------

  /** The scan began on a disk no older than the last announcement before it. */
  predicate Dated(s: State, listing: Listing) {
    && listing.noted <= listing.after <= Count(s)
    && s.announced[listing.after] <= listing.disk <= s.disk
  }

  predicate EntryInv(s: State, e: Entry) {
    e.gen == e.listing.noted % GENERATIONS && e.dir == e.listing.dir && Dated(s, e.listing)
  }

  predicate Noted(s: State, called: nat, noted: nat, gen: nat) {
    called <= noted <= Count(s) && gen == noted % GENERATIONS
  }

  predicate ThreadInv(s: State, t: Thread) {
    match t.stage
    case Start => true
    case Called(called) => called <= Count(s)
    case DirRead(called, _) => called <= Count(s)
    case GenLoaded(called, _, noted, gen) => Noted(s, called, noted, gen)
    case Missed(called, _, noted, gen) => Noted(s, called, noted, gen)
    case Scanning(called, dir, noted, gen, found) =>
      Noted(s, called, noted, gen) && found.dir == dir && found.noted == noted && Dated(s, found)
    case Returned(called, dir, noted, listing, hit) =>
      && called <= noted <= Count(s) && listing.dir == dir && Dated(s, listing)
      && listing.noted % GENERATIONS == noted % GENERATIONS && (!hit ==> listing.noted == noted)
  }

  ghost predicate Growing(announced: seq<nat>) {
    forall j, k | 0 <= j < k < |announced| :: announced[j] <= announced[k]
  }

  ghost predicate Inv(s: State) {
    && s.announced != [] && Growing(s.announced)
    && s.announced[Count(s)] <= s.disk && s.gen == Count(s) % GENERATIONS
    && (s.entry.Some? ==> EntryInv(s, s.entry.value))
    && (forall i | 0 <= i < |s.threads| :: ThreadInv(s, s.threads[i]))
  }

  lemma GrowthKeepsThreads(s: State, t: State, thread: Thread)
    requires s.announced != [] && s.announced <= t.announced && s.disk <= t.disk && ThreadInv(s, thread)
    ensures ThreadInv(t, thread)
  {
  }

  /** Announcements and disk changes keep what is known of threads that do not move. */
  lemma WorldKeepsInv(s: State, t: State)
    requires Inv(s) && (t == Invalidate(s) || t == s.(disk := s.disk + 1) || exists dir :: t == s.(dir := dir))
    ensures Inv(t)
  {
    assert forall k | 0 <= k <= Count(s) :: t.announced[k] == s.announced[k];
    forall i | 0 <= i < |t.threads| ensures ThreadInv(t, t.threads[i]) {
      GrowthKeepsThreads(s, t, s.threads[i]);
    }
  }

  /** A call that moves on its own changes nothing the other calls rely on. */
  lemma MoveFrame(s: State, t: State, i: nat)
    requires Inv(s) && i < |s.threads| && |t.threads| == |s.threads|
    requires t == s.(entry := t.entry, threads := s.threads[i := t.threads[i]])
    requires t.entry.Some? ==> EntryInv(s, t.entry.value)
    requires ThreadInv(s, t.threads[i])
    ensures Inv(t)
  {
    forall j | 0 <= j < |t.threads| ensures ThreadInv(t, t.threads[j]) {
      assert ThreadInv(s, t.threads[j]);
    }
  }

  lemma CallKeepsInv(s: State, i: nat)
    requires Inv(s) && i < |s.threads| && s.threads[i].stage.Start?
    ensures Inv(Step(s, i))
  {
    if s.threads[i].refresh {
      WorldKeepsInv(s, Invalidate(s));
      MoveFrame(Invalidate(s), Step(s, i), i);
    } else {
      MoveFrame(s, Step(s, i), i);
    }
  }

  lemma LookupKeepsInv(s: State, i: nat)
    requires Inv(s) && i < |s.threads| && s.threads[i].stage.GenLoaded?
    ensures Inv(Step(s, i))
  {
    assert ThreadInv(s, s.threads[i]);
    MoveFrame(s, Step(s, i), i);
  }

  lemma StepKeepsInv(s: State, i: nat)
    requires Inv(s) && i < |s.threads|
    ensures Inv(Step(s, i))
  {
    assert ThreadInv(s, s.threads[i]);
    if s.threads[i].stage.Start? {
      CallKeepsInv(s, i);
    } else if s.threads[i].stage.GenLoaded? {
      LookupKeepsInv(s, i);
    } else {
      MoveFrame(s, Step(s, i), i);
    }
  }

  lemma NextKeepsInv(s: State, a: Action)
    requires Inv(s)
    ensures Inv(Next(s, a))
  {
    match a
    case Move(i) => if i < |s.threads| { StepKeepsInv(s, i); }
    case _ => WorldKeepsInv(s, Next(s, a));
  }

  lemma {:induction false} RunKeepsInv(s: State, actions: seq<Action>)
    requires Init(s)
    ensures Inv(Run(s, actions))
    decreases |actions|
  {
    if actions != [] {
      RunKeepsInv(s, actions[..|actions| - 1]);
      NextKeepsInv(Run(s, actions[..|actions| - 1]), actions[|actions| - 1]);
    }
  }

  // ------------------------------------------------------------------------------------------------
  // Results, for any readers, refreshes, invalidations and disk changes in any interleaving
  // ------------------------------------------------------------------------------------------------

  /** The listing began after the first `count` invalidations, on what they announced or something newer. */
  predicate FreshSince(s: State, listing: Listing, count: nat) {
    count <= Count(s) && count <= listing.after && s.announced[count] <= listing.disk
  }

  /**
   * Whatever a call returns is for its own project directory. A list it scanned itself is always fresh since the
   * generation load, and a cached one is, unless the counter went all the way round between the two loads.
   */
  lemma EveryListIsFresh(s: State, actions: seq<Action>, i: nat)
    requires Init(s)
    ensures var t := Run(s, actions);
            i < |t.threads| && t.threads[i].stage.Returned? ==>
              var r := t.threads[i].stage;
              && r.listing.dir == r.dir
              && (!r.hit || r.noted < r.listing.noted + GENERATIONS ==> FreshSince(t, r.listing, r.noted))
  {
    RunKeepsInv(s, actions);
    var t := Run(s, actions);
    if i < |t.threads| && t.threads[i].stage.Returned? {
      var r := t.threads[i].stage;
      assert ThreadInv(t, t.threads[i]);
      if r.noted < r.listing.noted + GENERATIONS {
        CongruentAndClose(r.noted, r.listing.noted);
      }
    }
  }

  lemma CongruentAndClose(a: nat, b: nat)
    requires a % GENERATIONS == b % GENERATIONS && a < b + GENERATIONS
    ensures a <= b
  {
    assert a == a / GENERATIONS * GENERATIONS + a % GENERATIONS;
    assert b == b / GENERATIONS * GENERATIONS + b % GENERATIONS;
  }

  /** A Refresh call begins with its own invalidation, of the disk as it is, and counts it. */
  lemma RefreshInvalidatesFirst(s: State, i: nat)
    requires s.announced != [] && i < |s.threads| && s.threads[i] == Thread(true, Start)
    ensures var t := Next(s, Move(i));
            && t.announced == s.announced + [s.disk] && t.gen == (s.gen + 1) % GENERATIONS
            && t.threads[i].stage == Called(|s.announced|)
  {
  }

  /** Counted over the whole run, and from the start of the call: a Refresh call counts its own invalidation. */
  lemma CallSeesEarlierInvalidations(s: State, actions: seq<Action>, i: nat)
    requires Init(s)
    ensures var t := Run(s, actions);
            i < |t.threads| && t.threads[i].stage.Returned? && Count(t) < GENERATIONS ==>
              FreshSince(t, t.threads[i].stage.listing, t.threads[i].stage.called)
  {
    EveryListIsFresh(s, actions, i);
    RunKeepsInv(s, actions);
    var t := Run(s, actions);
    assert i < |t.threads| ==> ThreadInv(t, t.threads[i]);
  }

  /**
   * A slow scan that overwrites a newer entry cannot be hit by readers past it: a reader that noted a later
   * generation than the stored entry's own reader misses.
   */
  lemma SlowStoreOnlyMisses(s: State, actions: seq<Action>, i: nat)
    requires Init(s)
    ensures var t := Run(s, actions);
            i < |t.threads| && t.threads[i].stage.GenLoaded? && t.entry.Some?
            && t.entry.value.listing.noted < t.threads[i].stage.noted < t.entry.value.listing.noted + GENERATIONS ==>
              Next(t, Move(i)).threads[i].stage.Missed?
  {
    RunKeepsInv(s, actions);
    var t := Run(s, actions);
    if i < |t.threads| && t.threads[i].stage.GenLoaded? && t.entry.Some? {
      assert ThreadInv(t, t.threads[i]);
      if t.entry.value.listing.noted < t.threads[i].stage.noted < t.entry.value.listing.noted + GENERATIONS
         && t.entry.value.gen == t.threads[i].stage.gen {
        CongruentAndClose(t.threads[i].stage.noted, t.entry.value.listing.noted);
      }
    }
  }

  /** A run of `n` invalidations. */
  function Bumps(n: nat): seq<Action> {
    seq(n, _ => InvalidateCache)
  }

  /** The state after `n` more invalidations: nothing but the counters and announcements differs. */
  ghost predicate Bumped(t: State, u: State, n: nat) {
    && u == t.(announced := u.announced, gen := u.gen)
    && Count(u) == Count(t) + n
    && (n == 0 ==> u == t)
    && (n > 0 ==> u.gen == (t.gen + n) % GENERATIONS && u.announced[Count(u)] == t.disk)
  }

  lemma OneMoreBump(t: State, u: State, n: nat)
    requires t.announced != [] && Bumped(t, u, n)
    ensures u.announced != [] && Bumped(t, Invalidate(u), n + 1)
  {
    if n > 0 {
      AddAfterMod(t.gen + n, u.gen);
    }
  }

  lemma BumpsLast(before: seq<Action>, n: nat)
    requires n > 0
    ensures before + Bumps(n) == before + Bumps(n - 1) + [InvalidateCache]
  {
  }

  lemma {:induction false} BumpsAdvance(s: State, before: seq<Action>, n: nat)
    requires s.announced != []
    ensures Bumped(Run(s, before), Run(s, before + Bumps(n)), n)
  {
    if n == 0 {
      assert before + Bumps(0) == before;
    } else {
      BumpsAdvance(s, before, n - 1);
      BumpsLast(before, n);
      RunAppend(s, before + Bumps(n - 1), InvalidateCache);
      OneMoreBump(Run(s, before), Run(s, before + Bumps(n - 1)), n - 1);
    }
  }

  lemma AddAfterMod(a: nat, b: nat)
    requires b == a % GENERATIONS
    ensures (b + 1) % GENERATIONS == (a + 1) % GENERATIONS
  {
  }

  /** One reader fills the cache, a file changes, and 2^64 invalidations later another reader loads the generation. */
  function Filling(): seq<Action> {
    [] + [Move(0)] + [Move(0)] + [Move(0)] + [Move(0)] + [Move(0)] + [Move(0)] + [ChangeDisk]
  }

  function WrapRun(): seq<Action> {
    Filling() + Bumps(GENERATIONS) + [Move(1)] + [Move(1)] + [Move(1)] + [Move(1)]
  }

  function TwoReaders(): State {
    var reader := Thread(false, Start);
    State([0], 0, 0, "", None, [reader, reader])
  }

  lemma RunAppend(s: State, before: seq<Action>, a: Action)
    requires s.announced != []
    ensures Run(s, before + [a]) == Next(Run(s, before), a)
  {
    assert (before + [a])[..|before + [a]| - 1] == before;
  }

  function SixMoves(s: State, i: nat): State
    requires s.announced != []
  {
    Next(Next(FourMoves(s, i), Move(i)), Move(i))
  }

  lemma FillingUnfolds()
    ensures Run(TwoReaders(), Filling()) == Next(SixMoves(TwoReaders(), 0), ChangeDisk)
  {
    var s := TwoReaders();
    var p: seq<Action> := [];
    RunAppend(s, p, Move(0));
    RunAppend(s, p + [Move(0)], Move(0));
    RunAppend(s, p + [Move(0)] + [Move(0)], Move(0));
    RunAppend(s, p + [Move(0)] + [Move(0)] + [Move(0)], Move(0));
    RunAppend(s, p + [Move(0)] + [Move(0)] + [Move(0)] + [Move(0)], Move(0));
    RunAppend(s, p + [Move(0)] + [Move(0)] + [Move(0)] + [Move(0)] + [Move(0)], Move(0));
    RunAppend(s, p + [Move(0)] + [Move(0)] + [Move(0)] + [Move(0)] + [Move(0)] + [Move(0)], ChangeDisk);
  }

  /** A reader that finds no entry of its own scans what is there and stores it. */
  lemma MissingReaderFills(s: State, i: nat)
    requires s.announced != [] && i < |s.threads| && s.threads[i] == Thread(false, Start) && !Hits(s.entry, s.gen, s.dir)
    ensures var found := Listing(s.dir, s.disk, Count(s), Count(s));
            SixMoves(s, i) ==
            Goto(s.(entry := Some(Entry(found, s.gen, s.dir))), i, Returned(Count(s), s.dir, Count(s), found, false))
  {
    var s1 := Next(s, Move(i));
    assert s1 == Goto(s, i, Called(Count(s)));
    var s2 := Next(s1, Move(i));
    assert s2 == Goto(s, i, DirRead(Count(s), s.dir));
    var s3 := Next(s2, Move(i));
    assert s3 == Goto(s, i, GenLoaded(Count(s), s.dir, Count(s), s.gen));
    var s4 := Next(s3, Move(i));
    assert s4 == Goto(s, i, Missed(Count(s), s.dir, Count(s), s.gen));
    var s5 := Next(s4, Move(i));
    assert s5 == Goto(s, i, Scanning(Count(s), s.dir, Count(s), s.gen, Listing(s.dir, s.disk, Count(s), Count(s))));
  }

  lemma FirstReaderFills()
    ensures Run(TwoReaders(), Filling()) ==
            TwoReaders().(disk := 1, entry := Some(Entry(Listing("", 0, 0, 0), 0, "")),
              threads := [Thread(false, Returned(0, "", 0, Listing("", 0, 0, 0), false)), Thread(false, Start)])
  {
    FillingUnfolds();
    MissingReaderFills(TwoReaders(), 0);
  }

  function FourMoves(s: State, i: nat): State
    requires s.announced != []
  {
    Next(Next(Next(Next(s, Move(i)), Move(i)), Move(i)), Move(i))
  }

  /** A reader whose generation and directory match the entry's is served the entry. */
  lemma MatchingReaderHits(s: State)
    requires s.announced != [] && |s.threads| == 2 && s.threads[1] == Thread(false, Start)
    requires Hits(s.entry, s.gen, s.dir)
    ensures FourMoves(s, 1) ==
            s.(threads := [s.threads[0],
                           Thread(false, Returned(Count(s), s.dir, Count(s), s.entry.value.listing, true))])
  {
    var s1 := Next(s, Move(1));
    assert s1 == Goto(s, 1, Called(Count(s)));
    var s2 := Next(s1, Move(1));
    assert s2 == Goto(s1, 1, DirRead(Count(s), s.dir));
    var s3 := Next(s2, Move(1));
    assert s3 == Goto(s2, 1, GenLoaded(Count(s), s.dir, Count(s), s.gen));
  }

  /** The bound is exact: after 2^64 invalidations the second reader is handed the list from before the change. */
  lemma WrappedCounterServesStaleList()
    ensures Init(TwoReaders())
    ensures var t := Run(TwoReaders(), WrapRun());
            && |t.threads| == 2 && t.threads[1].stage.Returned? && t.threads[1].stage.hit
            && t.threads[1].stage.noted == t.threads[1].stage.listing.noted + GENERATIONS
            && !FreshSince(t, t.threads[1].stage.listing, t.threads[1].stage.noted)
  {
    var s := TwoReaders();
    var p := Filling() + Bumps(GENERATIONS);
    var u := Run(s, p);
    assert Run(s, WrapRun()) == FourMoves(u, 1) by {
      RunAppend(s, p, Move(1));
      RunAppend(s, p + [Move(1)], Move(1));
      RunAppend(s, p + [Move(1)] + [Move(1)], Move(1));
      RunAppend(s, p + [Move(1)] + [Move(1)] + [Move(1)], Move(1));
    }
    FirstReaderFills();
    BumpsAdvance(s, Filling(), GENERATIONS);
    MatchingReaderHits(u);
  }

  // ------------------------------------------------------------------------------------------------
  // The listing calls as the backend makes them, with nothing else running
  // ------------------------------------------------------------------------------------------------

  datatype Descriptor = Descriptor(name: string, description: string, hidden: bool)

  datatype DescriptorDTO = DescriptorDTO(name: string, description: string)

  /** The public roster: hidden profiles left out, the rest in discovery order. */
  function Roster(found: seq<Descriptor>): seq<DescriptorDTO> {
    if found == [] then []
    else
      var d := found[|found| - 1];
      Roster(found[..|found| - 1]) + if d.hidden then [] else [DescriptorDTO(d.name, d.description)]
  }

  /** A name is on the roster exactly when some profile that is not hidden carries it. */
  lemma {:induction false} RosterIsTheVisible(found: seq<Descriptor>, dto: DescriptorDTO)
    ensures dto in Roster(found) <==> Descriptor(dto.name, dto.description, false) in found
  {
    if found != [] {
      var d := found[|found| - 1];
      RosterIsTheVisible(found[..|found| - 1], dto);
      assert found == found[..|found| - 1] + [d];
    }
  }

  /** Rosters of consecutive stretches join up, so hiding a profile disturbs no order. */
  lemma {:induction false} RosterConcat(a: seq<Descriptor>, b: seq<Descriptor>)
    ensures Roster(a + b) == Roster(a) + Roster(b)
    decreases |b|
  {
    if b == [] {
      assert a + b == a;
    } else {
      RosterConcat(a, b[..|b| - 1]);
      assert (a + b)[..|a + b| - 1] == a + b[..|b| - 1];
    }
  }

  class FrontendAPI {
    var builderReady: bool
    var agentCache: Option<seq<DescriptorDTO>>
    var agentCacheGen: nat
    var agentCacheGenSnapshot: nat
    var agentCacheProjectDir: string

    predicate Cached(dir: string)
      reads this
    {
      agentCache.Some? && agentCacheGenSnapshot == agentCacheGen && agentCacheProjectDir == dir
    }

    constructor (builderReady: bool)
      ensures this.builderReady == builderReady && agentCache.None? && agentCacheGen == 0
    {
      this.builderReady, agentCache, agentCacheGen, agentCacheGenSnapshot, agentCacheProjectDir := builderReady, None, 0, 0, "";
    }

    method InvalidateAgentCache()
      modifies this`agentCacheGen
      ensures agentCacheGen == (old(agentCacheGen) + 1) % GENERATIONS
    {
      agentCacheGen := (agentCacheGen + 1) % GENERATIONS;
    }

    /** `found` is what a scan of the directories would return now. */
    method ListAgents(dir: string, found: seq<Descriptor>) returns (agents: seq<DescriptorDTO>)
      modifies this`agentCache, this`agentCacheGenSnapshot, this`agentCacheProjectDir
      ensures !builderReady ==> agents == [] && agentCache == old(agentCache)
      ensures builderReady ==> agents == if old(Cached(dir)) then old(agentCache).value else Roster(found)
      ensures old(Cached(dir)) <==>
        old(agentCache).Some? && old(agentCacheGenSnapshot) == agentCacheGen && old(agentCacheProjectDir) == dir
      ensures builderReady ==> Cached(dir) && agentCache == Some(agents)
    {
      if !builderReady {
        return [];
      }
      var gen := agentCacheGen;
      if agentCache.Some? && agentCacheGenSnapshot == gen && agentCacheProjectDir == dir {
        return agentCache.value;
      }
      agents := [];
      for i := 0 to |found|
        invariant agents == Roster(found[..i])
      {
        assert found[..i + 1][..i] == found[..i];
        if !found[i].hidden {
          agents := agents + [DescriptorDTO(found[i].name, found[i].description)];
        }
      }
      assert found[..|found|] == found;
      agentCache, agentCacheGenSnapshot, agentCacheProjectDir := Some(agents), gen, dir;
    }

    /** The forced re-scan: only a counter exactly one lap ahead of the stored generation could defeat it. */
    method RefreshAgents(dir: string, found: seq<Descriptor>) returns (agents: seq<DescriptorDTO>)
      modifies this`agentCache, this`agentCacheGen, this`agentCacheGenSnapshot, this`agentCacheProjectDir
      ensures builderReady && old(agentCacheGenSnapshot) != agentCacheGen ==> agents == Roster(found)
      ensures agentCacheGen == (old(agentCacheGen) + 1) % GENERATIONS
    {
      InvalidateAgentCache();
      agents := ListAgents(dir, found);
    }
  }
}
