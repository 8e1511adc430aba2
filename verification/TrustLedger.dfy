/**
 * The git trust ledger as the backend keeps it: two config lists and the process-wide registry, edited in
 * place. Every method is proved equal to its section in GitTrust, so the results there hold of this class.
 */
module TrustLedger {
  import opened Wrappers
  import opened GitTrust
  import Text

  datatype Refusal = NotInitialized | Refused(error: GitTrust.Error)

  /** Why a warning was raised about a repository that had been trusted. */
  datatype Warning = Unverifiable | Drifted(diffable: bool)

  predicate AnyTrusted(h: Host, list: seq<Record>, path: Path) {
    exists r :: r in list && Overlaps(h, r.path, path)
  }

  predicate AnyHardened(h: Host, list: seq<Path>, path: Path) {
    exists p :: p in list && Overlaps(h, p, path)
  }

  /** One turn of the filtering loops. */
  lemma KeepTrustedStep(h: Host, list: seq<Record>, i: nat, path: Path, kept: seq<Record>)
    requires i < |list| && KeptInOrder(list[..i], kept, OverlappingRecord(h, path))
    ensures KeptInOrder(list[..i + 1], if Overlaps(h, list[i].path, path) then kept else kept + [list[i]],
                        OverlappingRecord(h, path))
    ensures AnyTrusted(h, list[..i + 1], path) <==> AnyTrusted(h, list[..i], path) || Overlaps(h, list[i].path, path)
  {
    KeptSnoc(list[..i], kept, list[i], OverlappingRecord(h, path));
    assert list[..i + 1] == list[..i] + [list[i]];
  }

  lemma KeepHardenedStep(h: Host, list: seq<Path>, i: nat, path: Path, kept: seq<Path>)
    requires i < |list| && KeptInOrder(list[..i], kept, Overlapping(h, path))
    ensures KeptInOrder(list[..i + 1], if Overlaps(h, list[i], path) then kept else kept + [list[i]], Overlapping(h, path))
    ensures AnyHardened(h, list[..i + 1], path) <==> AnyHardened(h, list[..i], path) || Overlaps(h, list[i], path)
  {
    KeptSnoc(list[..i], kept, list[i], Overlapping(h, path));
    assert list[..i + 1] == list[..i] + [list[i]];
  }

  /** What the loops have kept at their end is what the sections keep. */
  lemma KeptTrusted(h: Host, list: seq<Record>, kept: seq<Record>, path: Path)
    requires KeptInOrder(list, kept, OverlappingRecord(h, path))
    ensures kept == KeepTrusted(h, list, path)
  {
    KeepTrustedInOrder(h, list, path);
    KeptIsUnique(list, kept, KeepTrusted(h, list, path), OverlappingRecord(h, path));
  }

  lemma KeptHardened(h: Host, list: seq<Path>, kept: seq<Path>, path: Path)
    requires KeptInOrder(list, kept, Overlapping(h, path))
    ensures kept == KeepHardened(h, list, path)
  {
    KeepHardenedInOrder(h, list, path);
    KeptIsUnique(list, kept, KeepHardened(h, list, path), Overlapping(h, path));
  }

  lemma HardenKeyUnfolds(h: Host, l: Ledger, key: Path)
    ensures var trusted := KeepTrusted(h, l.trusted, key);
            HardenKey(h, l, key) ==
            if AnyHardened(h, l.hardened, key) then l else Ledger(trusted, l.hardened + [key], Mirror(h, trusted))
  {
  }

  lemma TrustKeyUnfolds(h: Host, l: Ledger, key: Path, scan: Bytes)
    ensures var trusted := l.trusted + [Record(key, h.hash(scan), h.hash(h.semantic(scan)), h.semantic(scan))];
            TrustKey(h, l, key, scan) ==
            if AnyTrusted(h, l.trusted, key) then l
            else Ledger(trusted, KeepHardened(h, l.hardened, key), Mirror(h, trusted))
  {
  }

  class FrontendAPI {
    const host: Host
    var configured: bool
    var trusted: seq<Record>
    var hardened: seq<Path>
    var registry: set<Path>
    var snapshots: map<Hash, Bytes>

    ghost function View(): Ledger
      reads this
    {
      Ledger(trusted, hardened, registry)
    }

    constructor (host: Host)
      ensures this.host == host && !configured && View() == Ledger([], [], {})
    {
      this.host := host;
      configured, trusted, hardened, registry, snapshots := false, [], [], {}, map[];
    }

    /** The forms of `path`, first occurrence first and without repeats. */
    method TrustProbePaths(path: Path) returns (out: seq<Path>)
      ensures forall p :: p in out <==> p in Forms(host, path)
      ensures var c := host.clean(path);
              var k, w := host.trustRoot(c), host.workTreeRoot(c);
              forall p | p != "" :: p in out <==>
                (p == c || p == host.canonical(c) || (k != "" && p in {k, host.canonical(k)})
                 || (w != "" && p in {w, host.canonical(w)}))
      ensures forall i, j | 0 <= i < j < |out| :: out[i] != out[j]
    {
      var cleaned := host.clean(path);
      var candidates := [cleaned, host.canonical(cleaned)];
      var root := host.trustRoot(cleaned);
      if root != "" {
        candidates := candidates + [root, host.canonical(root)];
      }
      root := host.workTreeRoot(cleaned);
      if root != "" {
        candidates := candidates + [root, host.canonical(root)];
      }
      assert forall p :: p != "" ==> (p in candidates <==> p in Forms(host, path));
      out := [];
      for i := 0 to |candidates|
        invariant forall p :: p in out <==> p != "" && p in candidates[..i]
        invariant forall i, j | 0 <= i < j < |out| :: out[i] != out[j]
      {
        if candidates[i] != "" && candidates[i] !in out {
          out := out + [candidates[i]];
        }
      }
    }

    method TrustEntryMatchesPath(entryPath: Path, candidates: seq<Path>) returns (matches: bool)
      ensures matches <==> exists p :: p in Forms(host, entryPath) && p in candidates
    {
      var forms := TrustProbePaths(entryPath);
      for i := 0 to |forms|
        invariant forall k | 0 <= k < i :: forms[k] !in candidates
      {
        for j := 0 to |candidates|
          invariant forall k | 0 <= k < j :: candidates[k] != forms[i]
        {
          if forms[i] == candidates[j] {
            assert forms[i] in Forms(host, entryPath);
            return true;
          }
        }
      }
      matches := false;
    }

    method EntryOverlaps(entryPath: Path, path: Path, candidates: seq<Path>) returns (matches: bool)
      requires forall p :: p in candidates <==> p in Forms(host, path)
      ensures matches == Overlaps(host, entryPath, path)
    {
      matches := TrustEntryMatchesPath(entryPath, candidates);
      if matches {
        var p :| p in Forms(host, entryPath) && p in candidates;
        assert p in Forms(host, entryPath) * Forms(host, path);
      } else {
        assert Forms(host, entryPath) * Forms(host, path) == {};
      }
    }

    method TrustedGitRepoEntryFor(path: Path) returns (entry: Option<Record>)
      ensures entry == if configured then EntryFor(host, trusted, path) else None
    {
      if !configured {
        return None;
      }
      var candidates := TrustProbePaths(path);
      for i := 0 to |trusted|
        invariant EntryFor(host, trusted, path) == EntryFor(host, trusted[i..], path)
      {
        var matches := EntryOverlaps(trusted[i].path, path, candidates);
        if matches {
          return Some(trusted[i]);
        }
      }
      entry := None;
    }

    method SyncGitTrustRegistry()
      modifies this`registry
      ensures registry == if configured then Mirror(host, trusted) else {}
    {
      if !configured {
        registry := {};
        return;
      }
      var paths := [];
      for i := 0 to |trusted|
        invariant |paths| == i && forall k | 0 <= k < i :: paths[k] == Registered(host, trusted[k].path)
      {
        var registered := trusted[i].path;
        var root := host.trustRoot(trusted[i].path);
        if root != "" {
          registered := root;
        }
        paths := paths + [registered];
      }
      Replace(paths);
      assert registry == Mirror(host, trusted) by {
        forall s | s in Mirror(host, trusted) ensures s in registry {
          var p :| p in Paths(trusted) && s in Spellings(host, Registered(host, p));
          var i :| 0 <= i < |trusted| && trusted[i].path == p;
          assert paths[i] == Registered(host, p);
        }
        forall s | s in registry ensures s in Mirror(host, trusted) {
          var i :| 0 <= i < |paths| && s in Spellings(host, paths[i]);
          assert trusted[i] in trusted;
          assert trusted[i].path in Paths(trusted);
        }
      }
    }

    /** gittrust.Replace: the whole registry is swapped for the spellings of these roots. */
    method Replace(roots: seq<Path>)
      modifies this`registry
      ensures registry == set i, s | 0 <= i < |roots| && s in Spellings(host, roots[i]) :: s
    {
      var next := {};
      for i := 0 to |roots|
        invariant next == set k, s | 0 <= k < i && s in Spellings(host, roots[k]) :: s
      {
        var c := host.clean(roots[i]);
        if c != "" && c != "." && c != "/" {
          next := next + {c, host.canonical(c)};
        }
        assert next == (set k, s | 0 <= k < i && s in Spellings(host, roots[k]) :: s) + Spellings(host, roots[i]);
      }
      registry := next;
    }

    method RemoveTrustedPathLocked(cleaned: Path) returns (removed: bool)
      modifies this`trusted
      ensures trusted == KeepTrusted(host, old(trusted), cleaned)
      ensures KeptInOrder(old(trusted), trusted, OverlappingRecord(host, cleaned))
      ensures removed <==> AnyTrusted(host, old(trusted), cleaned)
    {
      var kept;
      kept, removed := WithoutTrusted(trusted, cleaned);
      trusted := kept;
    }

    method WithoutTrusted(list: seq<Record>, cleaned: Path) returns (kept: seq<Record>, removed: bool)
      ensures kept == KeepTrusted(host, list, cleaned) && KeptInOrder(list, kept, OverlappingRecord(host, cleaned))
      ensures removed <==> AnyTrusted(host, list, cleaned)
    {
      var candidates := TrustProbePaths(cleaned);
      kept, removed := [], false;
      KeptNothing<Record>(OverlappingRecord(host, cleaned));
      for i := 0 to |list|
        invariant KeptInOrder(list[..i], kept, OverlappingRecord(host, cleaned))
        invariant removed <==> AnyTrusted(host, list[..i], cleaned)
      {
        KeepTrustedStep(host, list, i, cleaned, kept);
        var matches := EntryOverlaps(list[i].path, cleaned, candidates);
        if matches {
          removed := true;
        } else {
          kept := kept + [list[i]];
        }
      }
      assert list[..|list|] == list;
      KeptTrusted(host, list, kept, cleaned);
    }

    method RemoveHardenPathLocked(cleaned: Path) returns (removed: bool)
      modifies this`hardened
      ensures hardened == KeepHardened(host, old(hardened), cleaned)
      ensures KeptInOrder(old(hardened), hardened, Overlapping(host, cleaned))
      ensures removed <==> AnyHardened(host, old(hardened), cleaned)
    {
      var kept;
      kept, removed := WithoutHardened(hardened, cleaned);
      hardened := kept;
    }

    method WithoutHardened(list: seq<Path>, cleaned: Path) returns (kept: seq<Path>, removed: bool)
      ensures kept == KeepHardened(host, list, cleaned) && KeptInOrder(list, kept, Overlapping(host, cleaned))
      ensures removed <==> AnyHardened(host, list, cleaned)
    {
      var candidates := TrustProbePaths(cleaned);
      kept, removed := [], false;
      KeptNothing<Path>(Overlapping(host, cleaned));
      for i := 0 to |list|
        invariant KeptInOrder(list[..i], kept, Overlapping(host, cleaned))
        invariant removed <==> AnyHardened(host, list[..i], cleaned)
      {
        KeepHardenedStep(host, list, i, cleaned, kept);
        var matches := EntryOverlaps(list[i], cleaned, candidates);
        if matches {
          removed := true;
        } else {
          kept := kept + [list[i]];
        }
      }
      assert list[..|list|] == list;
      KeptHardened(host, list, kept, cleaned);
    }

    /** Path checks, scanning and snapshot writes happen before the list is touched. */
    method TrustGitRepo(path: string, stat: Stat, capture: Capture) returns (outcome: Result<(), Refusal>)
      requires configured ==> registry == Mirror(host, trusted)
      modifies this`trusted, this`hardened, this`registry, this`snapshots
      ensures !configured ==> outcome.Err? && View() == old(View())
      ensures configured ==>
        var (l, o) := GitTrust.TrustGitRepo(host, old(View()), path, stat, capture);
        View() == l && outcome == Refusals(o)
      ensures outcome.Ok? ==>
        var scan := capture.scan.value;
        snapshots == old(snapshots)[host.hash(scan) := scan][host.hash(host.semantic(scan)) := host.semantic(scan)]
      ensures capture.scan.None? ==> snapshots == old(snapshots)
    {
      var admitted := Admit(host, path, stat);
      if admitted.Err? {
        return Err(Refused(admitted.error));
      }
      var cleaned := admitted.value;
      if !configured {
        return Err(NotInitialized);
      }
      if capture.scan.None? {
        return Err(Refused(Unscannable));
      }
      var scanned := capture.scan.value;
      var fingerprint, semanticFingerprint := host.hash(scanned), host.hash(host.semantic(scanned));
      if !capture.rawStored {
        return Err(Refused(SnapshotNotStored));
      }
      snapshots := snapshots[fingerprint := scanned];
      if !capture.semanticStored {
        return Err(Refused(SnapshotNotStored));
      }
      snapshots := snapshots[semanticFingerprint := host.semantic(scanned)];

      TrustLocked(cleaned, scanned);
      outcome := Ok(());
    }

    method TrustListed(cleaned: Path) returns (listed: bool)
      ensures listed <==> AnyTrusted(host, trusted, cleaned)
    {
      var candidates := TrustProbePaths(cleaned);
      for i := 0 to |trusted|
        invariant forall k | 0 <= k < i :: !Overlaps(host, trusted[k].path, cleaned)
      {
        var matches := EntryOverlaps(trusted[i].path, cleaned, candidates);
        if matches {
          assert trusted[i] in trusted;
          return true;
        }
      }
      listed := false;
    }

    method HardenListed(cleaned: Path) returns (listed: bool)
      ensures listed <==> AnyHardened(host, hardened, cleaned)
    {
      var candidates := TrustProbePaths(cleaned);
      for i := 0 to |hardened|
        invariant forall k | 0 <= k < i :: !Overlaps(host, hardened[k], cleaned)
      {
        var matches := EntryOverlaps(hardened[i], cleaned, candidates);
        if matches {
          assert hardened[i] in hardened;
          return true;
        }
      }
      listed := false;
    }

    /** The section of TrustGitRepo that runs under the config lock. */
    method TrustLocked(cleaned: Path, scanned: Bytes)
      requires configured && registry == Mirror(host, trusted)
      modifies this`trusted, this`hardened, this`registry
      ensures View() == TrustKey(host, old(View()), cleaned, scanned)
    {
      TrustKeyUnfolds(host, View(), cleaned, scanned);
      var listed := TrustListed(cleaned);
      if listed {
        return;
      }
      var _ := RemoveHardenPathLocked(cleaned);
      trusted := trusted
        + [Record(cleaned, host.hash(scanned), host.hash(host.semantic(scanned)), host.semantic(scanned))];
      SyncGitTrustRegistry();
    }

    method HardenGitRepo(path: string, stat: Stat) returns (outcome: Result<(), Refusal>)
      modifies this`trusted, this`hardened, this`registry
      ensures !configured ==> outcome.Err? && View() == old(View())
      ensures configured ==>
        var (l, o) := GitTrust.HardenGitRepo(host, old(View()), path, stat);
        View() == l && outcome == Refusals(o)
    {
      var admitted := Admit(host, path, stat);
      if admitted.Err? {
        return Err(Refused(admitted.error));
      }
      var cleaned := admitted.value;
      if !configured {
        return Err(NotInitialized);
      }
      HardenLocked(cleaned);
      outcome := Ok(());
    }

    /** The section of HardenGitRepo that runs under the config lock. */
    method HardenLocked(cleaned: Path)
      requires configured
      modifies this`trusted, this`hardened, this`registry
      ensures View() == HardenKey(host, old(View()), cleaned)
    {
      ghost var goal := HardenKey(host, View(), cleaned);
      HardenKeyUnfolds(host, View(), cleaned);
      var listed := HardenListed(cleaned);
      if listed {
        return;
      }
      assert goal.trusted == KeepTrusted(host, trusted, cleaned);
      assert goal.hardened == hardened + [cleaned] && goal.registry == Mirror(host, goal.trusted);
      var _ := RemoveTrustedPathLocked(cleaned);
      hardened := hardened + [cleaned];
      SyncGitTrustRegistry();
    }

    method RemoveTrustedGitRepo(path: string) returns (outcome: Result<(), Refusal>)
      modifies this`trusted, this`registry
      ensures !configured ==> outcome.Err? && View() == old(View())
      ensures configured ==>
        var (l, o) := GitTrust.RemoveTrustedGitRepo(host, old(View()), path);
        View() == l && outcome == Refusals(o)
      ensures outcome.Ok? <==> configured && Text.TrimSpace(path) != ""
      ensures hardened == old(hardened)
      ensures outcome.Ok? ==> KeptInOrder(old(trusted), trusted, OverlappingRecord(host, Text.TrimSpace(path)))
    {
      var p := Text.TrimSpace(path);
      if p == "" {
        return Err(Refused(PathRequired));
      }
      if !configured {
        return Err(NotInitialized);
      }
      ghost var before := trusted;
      var removed := RemoveTrustedPathLocked(p);
      if !removed {
        KeepAll(host, before, p);
        return Ok(());
      }
      SyncGitTrustRegistry();
      outcome := Ok(());
    }

    method RemoveHardenGitRepo(path: string) returns (outcome: Result<(), Refusal>)
      modifies this`hardened
      ensures !configured ==> outcome.Err? && View() == old(View())
      ensures configured ==>
        var (l, o) := GitTrust.RemoveHardenGitRepo(host, old(View()), path);
        View() == l && outcome == Refusals(o)
      ensures outcome.Ok? <==> configured && Text.TrimSpace(path) != ""
      ensures trusted == old(trusted) && registry == old(registry)
      ensures outcome.Ok? ==> KeptInOrder(old(hardened), hardened, Overlapping(host, Text.TrimSpace(path)))
    {
      var p := Text.TrimSpace(path);
      if p == "" {
        return Err(Refused(PathRequired));
      }
      if !configured {
        return Err(NotInitialized);
      }
      var _ := RemoveHardenPathLocked(p);
      outcome := Ok(());
    }

    /** Recovers the identity from the stored bytes, never from what the repository holds now. */
    method MigrateTrustedGitRepoRecord(copy: Record, stored: bool) returns (migrated: Option<Record>)
      requires configured && copy.semantic == ""
      modifies this`trusted, this`snapshots
      ensures (View(), migrated) == GitTrust.Migrate(host, old(View()), copy, Stored(old(snapshots), copy.raw))
      ensures forall k | k in old(snapshots) :: k in snapshots
      ensures migrated.Some? && stored ==> migrated.value.semantic in snapshots
    {
      if copy.raw == "" || copy.raw !in snapshots {
        return None;
      }
      var raw := snapshots[copy.raw];
      if host.hash(raw) != copy.raw {
        return None;
      }
      var semantic := host.interpret(raw);
      if semantic.None? {
        return None;
      }
      var fingerprint := host.hash(semantic.value);
      if stored {
        snapshots := snapshots[fingerprint := semantic.value];
      }
      var updated := MigrateLocked(copy, fingerprint);
      if !updated {
        return None;
      }
      migrated := Some(copy.(semantic := fingerprint));
    }

    /** The section of the migration that runs under the config lock. */
    method MigrateLocked(copy: Record, fingerprint: Hash) returns (updated: bool)
      modifies this`trusted
      ensures updated <==> exists r :: r in old(trusted) && SameRecord(host, r, copy) && r.semantic == ""
      ensures trusted == if updated then MigrateRecords(host, old(trusted), copy, fingerprint) else old(trusted)
    {
      ghost var before := trusted;
      updated := false;
      for i := 0 to |trusted|
        invariant |trusted| == |before|
        invariant forall k | 0 <= k < i :: trusted[k] == MigrateRecords(host, before, copy, fingerprint)[k]
        invariant forall k | i <= k < |trusted| :: trusted[k] == before[k]
        invariant updated <==> exists k :: 0 <= k < i && SameRecord(host, before[k], copy) && before[k].semantic == ""
      {
        if SameRecord(host, trusted[i], copy) && trusted[i].semantic == "" {
          trusted := trusted[i := trusted[i].(semantic := fingerprint)];
          updated := true;
        }
      }
      assert trusted == MigrateRecords(host, before, copy, fingerprint);
      WaitingMembers(host, before, copy);
      assert !updated ==> trusted == before;
    }

    /** Rebinds a record to bytes that changed without changing what they mean. */
    method RefreshTrustedGitRepoRawSnapshot(copy: Record, scanned: Bytes)
      modifies this`trusted, this`snapshots
      ensures View() == old(View()).(trusted := RefreshRecords(host, old(trusted), copy, host.hash(scanned)))
      ensures snapshots == old(snapshots)[host.hash(scanned) := scanned][copy.semantic := host.semantic(scanned)]
    {
      var fingerprint := host.hash(scanned);
      snapshots := snapshots[fingerprint := scanned][copy.semantic := host.semantic(scanned)];
      ghost var before := trusted;
      for i := 0 to |trusted|
        modifies this`trusted
        invariant |trusted| == |before|
        invariant forall k | 0 <= k < i :: trusted[k] == RefreshRecords(host, before, copy, fingerprint)[k]
        invariant forall k | i <= k < |trusted| :: trusted[k] == before[k]
      {
        if SameRecord(host, trusted[i], copy) {
          trusted := trusted[i := trusted[i].(raw := fingerprint)];
        }
      }
      assert trusted == RefreshRecords(host, before, copy, fingerprint);
    }

    /** Best effort: a path of white space removes nothing. */
    method EvictTrustedGitRepo(copy: Record)
      requires configured && registry == Mirror(host, trusted)
      modifies this`trusted, this`registry
      ensures View() == GitTrust.RemoveTrustedGitRepo(host, old(View()), copy.path).0
      ensures registry == Mirror(host, trusted) && Paths(trusted) == Remaining(host, Paths(old(trusted)), copy.path)
    {
      RemovalLeaves(host, View(), copy.path);
      var _ := RemoveTrustedGitRepo(copy.path);
    }

    /**
     * One recheck of a copy, however stale, with nothing else running. It stays quiet exactly when the copy has its
     * semantic fingerprint or can be given it, from its snapshot and for a record still waiting for one, and the
     * configuration found still means what was reviewed. Otherwise the copy's trimmed path leaves the list.
     */
    method RecheckTrustedGitRepo(copy: Record, scan: Option<Bytes>, stored: bool) returns (warning: Option<Warning>)
      requires configured && registry == Mirror(host, trusted)
      requires FaithfulSnapshots(host) && Faithful(host, copy)
      modifies this`trusted, this`registry, this`snapshots
      ensures hardened == old(hardened) && registry == Mirror(host, trusted)
      ensures warning.None? <==>
        && (copy.semantic != "" || Migratable(host, old(trusted), copy, Stored(old(snapshots), copy.raw)))
        && scan.Some? && host.semantic(scan.value) == copy.reviewed
      ensures Paths(trusted) ==
        if warning.None? then Paths(old(trusted)) else Remaining(host, Paths(old(trusted)), copy.path)
      ensures warning.Some? && warning.value.Drifted? ==>
        (warning.value.diffable <==> (if copy.semantic != "" then copy.semantic else host.hash(copy.reviewed)) in snapshots)
      ensures warning == Some(Unverifiable) <==>
        copy.semantic == "" && !Migratable(host, old(trusted), copy, Stored(old(snapshots), copy.raw))
      ensures warning.None? ==> forall i | 0 <= i < |trusted| ::
        trusted[i] == Followed(host, copy, old(trusted)[i], host.hash(scan.value))
    {
      var current := copy;
      if current.semantic == "" {
        var migrated := MigrateTrustedGitRepoRecord(current, stored);
        MigrationOutcome(host, old(View()), copy, Stored(old(snapshots), copy.raw));
        if migrated.None? {
          EvictTrustedGitRepo(copy);
          return Some(Unverifiable);
        }
        current := migrated.value;
      }
      match Recheck(host, current, scan) {
        case Silent =>
          warning := None;
        case Inert =>
          RefreshTrustedGitRepoRawSnapshot(current, scan.value);
          assert Paths(trusted) == Paths(old(trusted));
          warning := None;
        case Drift =>
          EvictTrustedGitRepo(copy);
          warning := Some(Drifted(current.semantic in snapshots));
      }
    }
  }

  /**
   * A record after a quiet recheck: one the copy stands for is bound to the bytes found, and has its semantic
   * fingerprint now if the copy was waiting for it.
   */
  function Followed(h: Host, copy: Record, r: Record, found: Hash): Record {
    if h.clean(r.path) != h.clean(copy.path) || r.raw != copy.raw then r
    else r.(raw := found, semantic := if copy.semantic == "" && r.semantic == "" then h.hash(copy.reviewed) else r.semantic)
  }

  /** The paths an eviction leaves. */
  function Remaining(h: Host, paths: seq<Path>, path: string): seq<Path> {
    if Text.TrimSpace(path) == "" then paths else KeepHardened(h, paths, Text.TrimSpace(path))
  }

  /** The copy's snapshot can be read back, and a listed record of its path and fingerprint still waits for migration. */
  predicate Migratable(h: Host, list: seq<Record>, copy: Record, read: Option<Bytes>) {
    Recover(h, copy, read).Some? && exists r :: r in list && SameRecord(h, r, copy) && r.semantic == ""
  }

  /** readGitConfigSnapshot. */
  function Stored(snapshots: map<Hash, Bytes>, fingerprint: Hash): Option<Bytes> {
    if fingerprint in snapshots then Some(snapshots[fingerprint]) else None
  }

  function Refusals(o: Outcome): Result<(), Refusal> {
    if o.Ok? then Ok(()) else Err(Refused(o.error))
  }

  lemma RemovalLeaves(h: Host, l: Ledger, path: string)
    requires l.registry == Mirror(h, l.trusted)
    ensures var after := GitTrust.RemoveTrustedGitRepo(h, l, path).0;
            after.registry == Mirror(h, after.trusted) && Paths(after.trusted) == Remaining(h, Paths(l.trusted), path)
  {
    var p := Text.TrimSpace(path);
    KeepPaths(h, l.trusted, p);
    if p != "" && !exists r :: r in l.trusted && Overlaps(h, r.path, p) {
      KeepAll(h, l.trusted, p);
    }
  }

  /** Somewhere in the list is in the list. */
  lemma WaitingMembers(h: Host, list: seq<Record>, copy: Record)
    ensures (exists k :: 0 <= k < |list| && SameRecord(h, list[k], copy) && list[k].semantic == "") <==>
            (exists r :: r in list && SameRecord(h, r, copy) && r.semantic == "")
  {
    if r :| r in list && SameRecord(h, r, copy) && r.semantic == "" {
      var k :| 0 <= k < |list| && list[k] == r;
    }
  }

  lemma MigrationOutcome(h: Host, l: Ledger, copy: Record, read: Option<Bytes>)
    requires FaithfulSnapshots(h) && Faithful(h, copy) && copy.semantic == ""
    ensures var (after, migrated) := GitTrust.Migrate(h, l, copy, read);
            && Paths(after.trusted) == Paths(l.trusted)
            && (migrated.Some? <==> Migratable(h, l.trusted, copy, read))
            && (migrated.Some? ==> migrated.value == copy.(semantic := h.hash(copy.reviewed)))
  {
    if Recover(h, copy, read).Some? {
      MigrationRecoversTheReview(h, copy, read);
    }
  }

  /**
   * Of two rechecks of one unmigrated copy the second finds nothing left to migrate, so by the condition above it
   * evicts the repository though nothing changed.
   */
  lemma SecondMigrationFindsNothing(h: Host, l: Ledger, copy: Record, read: Option<Bytes>)
    requires FaithfulSnapshots(h) && Migratable(h, l.trusted, copy, read)
    ensures !Migratable(h, GitTrust.Migrate(h, l, copy, read).0.trusted, copy, read)
  {
    var fingerprint := h.hash(Recover(h, copy, read).value);
    var after := MigrateRecords(h, l.trusted, copy, fingerprint);
    forall r | r in after && SameRecord(h, r, copy) ensures r.semantic != "" {
      var i :| 0 <= i < |after| && after[i] == r;
      assert SameRecord(h, l.trusted[i], copy);
    }
  }
}
