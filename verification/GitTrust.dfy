/**
 * The git trust ledger: which repositories run raw git (trusted) and which never do (hardened), and what
 * every trusted record still says about the configuration the user reviewed.
 *
 * This file holds the matching relation, the atomic sections as functions on a Ledger, and the results over
 * every run of those sections. TrustLedger.dfy holds the class whose methods are proved equal to them.
 */
module GitTrust {
  import opened Wrappers
  import Text

  type Path = string
  type Bytes = seq<bv8>
  type Hash = string

  /** The parts of the machine the ledger asks about, all taken as fixed while it runs. */
  datatype Host = Host(
    clean: Path -> Path,             // filepath.Clean
    isAbs: Path -> bool,             // filepath.IsAbs
    canonical: Path -> Path,         // symlink-resolved spelling, or the path itself
    trustRoot: Path -> Path,         // ResolveGitTrustRoot, "" outside any repository
    workTreeRoot: Path -> Path,      // ResolveWorkTreeRoot, "" outside any repository
    hash: Bytes -> Hash,             // hex SHA-256
    semantic: Bytes -> Bytes,        // the semantic snapshot of a scanned configuration
    interpret: Bytes -> Option<Bytes>)  // the same, recovered from a stored raw snapshot

  /** What path resolution promises: normal forms are fixed points, and a root resolves to itself in its repository. */
  ghost predicate CoherentPaths(h: Host) {
    && (forall p :: h.clean(p) != "" && h.clean(h.clean(p)) == h.clean(p))
    && (forall p :: h.canonical(h.canonical(p)) == h.canonical(p))
    && (forall p :: p != "" ==> h.canonical(p) != "")
    && (forall p :: h.trustRoot(h.clean(p)) == h.trustRoot(p) && h.workTreeRoot(h.clean(p)) == h.workTreeRoot(p))
    && (forall p :: (h.trustRoot(p) == "") == (h.workTreeRoot(p) == ""))
    && (forall p :: h.trustRoot(p) != "" ==> IsRoot(h, h.trustRoot(p)))
  }

  ghost predicate IsRoot(h: Host, root: Path) {
    h.clean(root) == root && h.trustRoot(root) == root && h.workTreeRoot(root) == root
  }

  /** And of a resolved spelling or a work tree's root: both are in normal form, and the root is in its repository. */
  ghost predicate CoherentWorkTrees(h: Host) {
    && (forall p :: h.clean(h.canonical(h.clean(p))) == h.canonical(h.clean(p)))
    && (forall p :: h.workTreeRoot(p) != "" ==> InNormalForm(h, h.workTreeRoot(p), h.trustRoot(p)))
  }

  ghost predicate InNormalForm(h: Host, path: Path, root: Path) {
    h.clean(path) == path && h.trustRoot(path) == root
  }

  /** What fingerprinting promises: no collisions, and a stored snapshot reads back with the meaning it had. */
  ghost predicate FaithfulSnapshots(h: Host) {
    && (forall b :: h.hash(b) != "")
    && (forall b, c :: h.hash(b) == h.hash(c) ==> b == c)
    && (forall b :: h.interpret(b).Some? ==> h.interpret(b).value == h.semantic(b))
  }

  // ------------------------------------------------------------------------------------------------
  // Trust-key forms
  // ------------------------------------------------------------------------------------------------

  function RootForms(h: Host, root: Path): set<Path> {
    if root == "" then {} else {root, h.canonical(root)}
  }

  /** Every form a decision for `path` may be stored or looked up under (TrustProbePaths). */
  function Forms(h: Host, path: Path): set<Path> {
    var c := h.clean(path);
    ({c, h.canonical(c)} + RootForms(h, h.trustRoot(c)) + RootForms(h, h.workTreeRoot(c))) - {""}
  }

  /** Two paths denote the same repository as far as the ledger is concerned. Symmetric, not transitive. */
  predicate Overlaps(h: Host, a: Path, b: Path) {
    Forms(h, a) * Forms(h, b) != {}
  }

  lemma OverlapsSymmetric(h: Host, a: Path, b: Path)
    ensures Overlaps(h, a, b) == Overlaps(h, b, a)
  {
    assert Forms(h, a) * Forms(h, b) == Forms(h, b) * Forms(h, a);
  }

  /** The key a decision is recorded under: the trust root when there is one. */
  function Key(h: Host, path: Path): Path {
    var c := h.clean(path);
    if h.trustRoot(c) != "" then h.trustRoot(c) else c
  }

  lemma KeyForms(h: Host, path: Path)
    requires CoherentPaths(h)
    ensures Forms(h, Key(h, path)) == {Key(h, path), h.canonical(Key(h, path))}
  {
    var k := Key(h, path);
    assert h.clean(k) == k;
    assert h.canonical(k) != "";
  }

  /** Any entry that denotes a recorded key carries that key's canonical spelling. */
  lemma OverlapCarriesCanonical(h: Host, path: Path, x: Path)
    requires CoherentPaths(h) && Overlaps(h, x, Key(h, path))
    ensures h.canonical(Key(h, path)) in Forms(h, x)
  {
    var k := Key(h, path);
    KeyForms(h, path);
    var f :| f in Forms(h, x) * Forms(h, k);
    assert h.canonical(f) == h.canonical(k);
    var c := h.clean(x);
    assert h.canonical(f) != "";
    assert h.canonical(f) in Forms(h, x);
  }

  /** Around a recorded key the relation IS transitive, which is what makes a decision unambiguous. */
  lemma OverlapThroughKey(h: Host, path: Path, x: Path, y: Path)
    requires CoherentPaths(h)
    requires Overlaps(h, x, Key(h, path)) && Overlaps(h, y, Key(h, path))
    ensures Overlaps(h, x, y)
  {
    OverlapCarriesCanonical(h, path, x);
    OverlapCarriesCanonical(h, path, y);
    assert h.canonical(Key(h, path)) in Forms(h, x) * Forms(h, y);
  }

  // ------------------------------------------------------------------------------------------------
  // The ledger and its atomic sections
  // ------------------------------------------------------------------------------------------------

  /**
   * A trusted repository. `raw` and `semantic` are the stored fingerprints ("" when absent). `reviewed` is
   * history only: the semantic snapshot the user accepted when trusting. No section reads it.
   */
  datatype Record = Record(path: Path, raw: Hash, semantic: Hash, reviewed: Bytes)

  datatype Ledger = Ledger(trusted: seq<Record>, hardened: seq<Path>, registry: set<Path>)

  datatype Error =
    PathRequired | NotAbsolute | NoSuchDirectory | NotADirectory | Unscannable | SnapshotNotStored

  type Outcome = Result<(), Error>

  datatype Stat = Missing | NotDirectory | Directory

  function KeepTrusted(h: Host, records: seq<Record>, path: Path): (kept: seq<Record>)
    ensures forall r :: r in kept <==> r in records && !Overlaps(h, r.path, path)
  {
    if records == [] then []
    else if Overlaps(h, records[0].path, path) then KeepTrusted(h, records[1..], path)
    else [records[0]] + KeepTrusted(h, records[1..], path)
  }

  function KeepHardened(h: Host, paths: seq<Path>, path: Path): (kept: seq<Path>)
    ensures forall p :: p in kept <==> p in paths && !Overlaps(h, p, path)
  {
    if paths == [] then []
    else if Overlaps(h, paths[0], path) then KeepHardened(h, paths[1..], path)
    else [paths[0]] + KeepHardened(h, paths[1..], path)
  }

  /** gittrust.spellings, with the roots Replace refuses dropped. */
  function Spellings(h: Host, root: Path): set<Path> {
    var c := h.clean(root);
    if c in {"", ".", "/"} then {} else {c, h.canonical(c)}
  }

  function Registered(h: Host, path: Path): Path {
    if h.trustRoot(path) != "" then h.trustRoot(path) else path
  }

  function Paths(records: seq<Record>): (paths: seq<Path>)
    ensures |paths| == |records| && forall i | 0 <= i < |paths| :: paths[i] == records[i].path
  {
    seq(|records|, i requires 0 <= i < |records| => records[i].path)
  }

  lemma PathsMembers(records: seq<Record>)
    ensures forall p :: p in Paths(records) <==> exists r :: r in records && r.path == p
  {
    forall r | r in records ensures r.path in Paths(records) {
      var i :| 0 <= i < |records| && records[i] == r;
      assert Paths(records)[i] == r.path;
    }
  }

  /** The registry the spawn layer consults, as syncGitTrustRegistry builds it. */
  function Mirror(h: Host, records: seq<Record>): set<Path> {
    set p, s | p in Paths(records) && s in Spellings(h, Registered(h, p)) :: s
  }

  /** gittrust.IsTrusted. */
  predicate RunsRawGit(h: Host, registry: set<Path>, root: Path) {
    h.clean(root) in registry || h.canonical(h.clean(root)) in registry
  }

  /** The refusals TrustGitRepo and HardenGitRepo share, up to the resolved key. */
  function Admit(h: Host, path: string, stat: Stat): Result<Path, Error> {
    var p := Text.TrimSpace(path);
    if p == "" then Err(PathRequired)
    else if !h.isAbs(h.clean(p)) then Err(NotAbsolute)
    else if stat.Missing? then Err(NoSuchDirectory)
    else if stat.NotDirectory? then Err(NotADirectory)
    else Ok(Key(h, p))
  }

  /** What scanning and snapshotting produced before the config lock was taken. */
  datatype Capture = Capture(scan: Option<Bytes>, rawStored: bool, semanticStored: bool)

  function TrustGitRepo(h: Host, l: Ledger, path: string, stat: Stat, capture: Capture): (Ledger, Outcome) {
    match Admit(h, path, stat)
    case Err(e) => (l, Err(e))
    case Ok(key) =>
      if capture.scan.None? then (l, Err(Unscannable))
      else if !capture.rawStored || !capture.semanticStored then (l, Err(SnapshotNotStored))
      else (TrustKey(h, l, key, capture.scan.value), Ok(()))
  }

  function TrustKey(h: Host, l: Ledger, key: Path, scan: Bytes): Ledger {
    if exists r :: r in l.trusted && Overlaps(h, r.path, key) then l
    else
      var trusted := l.trusted + [Record(key, h.hash(scan), h.hash(h.semantic(scan)), h.semantic(scan))];
      Ledger(trusted, KeepHardened(h, l.hardened, key), Mirror(h, trusted))
  }

  function HardenGitRepo(h: Host, l: Ledger, path: string, stat: Stat): (Ledger, Outcome) {
    match Admit(h, path, stat)
    case Err(e) => (l, Err(e))
    case Ok(key) => (HardenKey(h, l, key), Ok(()))
  }

  function HardenKey(h: Host, l: Ledger, key: Path): Ledger {
    if exists p :: p in l.hardened && Overlaps(h, p, key) then l
    else
      var trusted := KeepTrusted(h, l.trusted, key);
      Ledger(trusted, l.hardened + [key], Mirror(h, trusted))
  }

  function RemoveTrustedGitRepo(h: Host, l: Ledger, path: string): (Ledger, Outcome) {
    var p := Text.TrimSpace(path);
    if p == "" then (l, Err(PathRequired))
    else if !exists r :: r in l.trusted && Overlaps(h, r.path, p) then (l, Ok(()))
    else
      var trusted := KeepTrusted(h, l.trusted, p);
      (Ledger(trusted, l.hardened, Mirror(h, trusted)), Ok(()))
  }

  function RemoveHardenGitRepo(h: Host, l: Ledger, path: string): (Ledger, Outcome) {
    var p := Text.TrimSpace(path);
    if p == "" then (l, Err(PathRequired))
    else (l.(hardened := KeepHardened(h, l.hardened, p)), Ok(()))
  }

  /** trustedGitRepoEntryFor: a copy of the first matching record. */
  function EntryFor(h: Host, records: seq<Record>, path: Path): (e: Option<Record>)
    ensures e.Some? ==> exists i :: FirstOverlap(h, records, path, i) && e.value == records[i]
    ensures e.None? ==> forall r | r in records :: !Overlaps(h, r.path, path)
  {
    if records == [] then None
    else if Overlaps(h, records[0].path, path) then
      assert FirstOverlap(h, records, path, 0);
      Some(records[0])
    else
      assert forall i | FirstOverlap(h, records[1..], path, i) :: FirstOverlap(h, records, path, i + 1);
      EntryFor(h, records[1..], path)
  }

  /** Position `i` holds the first record that overlaps the path. */
  predicate FirstOverlap(h: Host, records: seq<Record>, path: Path, i: int) {
    0 <= i < |records| && Overlaps(h, records[i].path, path) && forall k | 0 <= k < i :: !Overlaps(h, records[k].path, path)
  }

  /** The semantic snapshot a pre-semantic copy can be migrated to, from the bytes read back for it. */
  function Recover(h: Host, copy: Record, read: Option<Bytes>): Option<Bytes> {
    if copy.raw == "" || read.None? || h.hash(read.value) != copy.raw then None
    else h.interpret(read.value)
  }

  predicate SameRecord(h: Host, r: Record, copy: Record) {
    h.clean(r.path) == h.clean(copy.path) && r.raw == copy.raw
  }

  function MigrateRecords(h: Host, records: seq<Record>, copy: Record, semantic: Hash): (out: seq<Record>)
    ensures |out| == |records|
    ensures forall i | 0 <= i < |records| ::
      out[i] == if SameRecord(h, records[i], copy) && records[i].semantic == ""
                then records[i].(semantic := semantic) else records[i]
  {
    seq(|records|, i requires 0 <= i < |records| =>
      if SameRecord(h, records[i], copy) && records[i].semantic == "" then records[i].(semantic := semantic)
      else records[i])
  }

  /** migrateTrustedGitRepoRecord; the second component is the migrated copy, None when unmigratable. */
  function Migrate(h: Host, l: Ledger, copy: Record, read: Option<Bytes>): (Ledger, Option<Record>) {
    match Recover(h, copy, read)
    case None => (l, None)
    case Some(semantic) =>
      var trusted := MigrateRecords(h, l.trusted, copy, h.hash(semantic));
      if exists r :: r in l.trusted && SameRecord(h, r, copy) && r.semantic == ""
      then (l.(trusted := trusted), Some(copy.(semantic := h.hash(semantic))))
      else (l, None)
  }

  function RefreshRecords(h: Host, records: seq<Record>, copy: Record, raw: Hash): (out: seq<Record>)
    ensures |out| == |records|
    ensures forall i | 0 <= i < |records| ::
      out[i] == if SameRecord(h, records[i], copy) then records[i].(raw := raw) else records[i]
  {
    seq(|records|, i requires 0 <= i < |records| =>
      if SameRecord(h, records[i], copy) then records[i].(raw := raw) else records[i])
  }

  datatype Verdict = Silent | Inert | Drift

  /** What a recheck of `copy` (already migrated) decides about the configuration found now. */
  function Recheck(h: Host, copy: Record, scan: Option<Bytes>): Verdict {
    if scan.None? || h.hash(h.semantic(scan.value)) != copy.semantic then Drift
    else if h.hash(scan.value) == copy.raw then Silent
    else Inert
  }

  // ------------------------------------------------------------------------------------------------
  // Runs
  // ------------------------------------------------------------------------------------------------

  /**
   * One step of any thread. Copies are taken outside the lock and may be acted on at any later time, so a
   * run keeps every copy ever taken; `read` is whatever the snapshot file held, corrupted or not.
   */
  datatype Action =
    | Trust(path: string, stat: Stat, capture: Capture)
    | Harden(path: string, stat: Stat)
    | Untrust(path: string)
    | Unharden(path: string)
    | TakeCopy(path: Path)
    | MigrateCopy(copy: Record, read: Option<Bytes>)
    | RefreshCopy(copy: Record, scanned: Bytes)
    | EvictCopy(copy: Record)

  datatype System = System(ledger: Ledger, copies: set<Record>)

  function Next(h: Host, s: System, a: Action): System {
    match a
    case Trust(path, stat, capture) => s.(ledger := TrustGitRepo(h, s.ledger, path, stat, capture).0)
    case Harden(path, stat) => s.(ledger := HardenGitRepo(h, s.ledger, path, stat).0)
    case Untrust(path) => s.(ledger := RemoveTrustedGitRepo(h, s.ledger, path).0)
    case Unharden(path) => s.(ledger := RemoveHardenGitRepo(h, s.ledger, path).0)
    case TakeCopy(path) =>
      var e := EntryFor(h, s.ledger.trusted, path);
      if e.None? then s else s.(copies := s.copies + {e.value})
    case MigrateCopy(copy, read) =>
      if copy !in s.copies || copy.semantic != "" then s
      else
        var (l, out) := Migrate(h, s.ledger, copy, read);
        System(l, if out.None? then s.copies else s.copies + {out.value})
    case RefreshCopy(copy, scanned) =>
      if copy !in s.copies || !Recheck(h, copy, Some(scanned)).Inert? then s
      else s.(ledger := s.ledger.(trusted := RefreshRecords(h, s.ledger.trusted, copy, h.hash(scanned))))
    case EvictCopy(copy) =>
      if copy !in s.copies then s else s.(ledger := RemoveTrustedGitRepo(h, s.ledger, copy.path).0)
  }

  function Run(h: Host, s: System, actions: seq<Action>): System
    decreases |actions|
  {
    if actions == [] then s
    else Next(h, Run(h, s, actions[..|actions| - 1]), actions[|actions| - 1])
  }

  // ------------------------------------------------------------------------------------------------
  // Result 1: fingerprints keep naming what the user reviewed
  // ------------------------------------------------------------------------------------------------

  /** The raw fingerprint names bytes that mean what was reviewed; the semantic one is absent or exactly that. */
  ghost predicate Faithful(h: Host, r: Record) {
    && (forall b | h.hash(b) == r.raw :: h.semantic(b) == r.reviewed)
    && (r.semantic == "" || r.semantic == h.hash(r.reviewed))
  }

  /** In the list, or copied out of it at some earlier point. */
  predicate Knows(s: System, r: Record) {
    r in s.ledger.trusted || r in s.copies
  }

  /** Every known record is faithful, and two that the sections would take for the same one agree on the review. */
  ghost predicate Reviewed(h: Host, s: System) {
    && (forall r | Knows(s, r) :: Faithful(h, r))
    && (forall r, c | Knows(s, r) && Knows(s, c) && SameRecord(h, r, c) :: r.reviewed == c.reviewed)
  }

  /** A fingerprint of actual bytes settles the review on its own. */
  lemma FingerprintSettlesReview(h: Host, s: System, b: Bytes, r: Record)
    requires Reviewed(h, s) && Knows(s, r) && r.raw == h.hash(b)
    ensures r.reviewed == h.semantic(b)
  {
    assert Faithful(h, r);
  }

  lemma TrustKeepsReviewed(h: Host, s: System, key: Path, scan: Bytes)
    requires FaithfulSnapshots(h) && Reviewed(h, s)
    ensures Reviewed(h, s.(ledger := TrustKey(h, s.ledger, key, scan)))
  {
    var t := s.(ledger := TrustKey(h, s.ledger, key, scan));
    forall r | Knows(t, r) && r.raw == h.hash(scan) ensures r.reviewed == h.semantic(scan) {
      if Knows(s, r) {
        FingerprintSettlesReview(h, s, scan, r);
      }
    }
  }

  lemma MigrationRecoversTheReview(h: Host, copy: Record, read: Option<Bytes>)
    requires FaithfulSnapshots(h) && Faithful(h, copy) && Recover(h, copy, read).Some?
    ensures Recover(h, copy, read).value == copy.reviewed
  {
    assert h.hash(read.value) == copy.raw;
  }

  /** Migration only fills in the semantic fingerprint of a record already known. */
  lemma MigratedRecord(h: Host, s: System, copy: Record, read: Option<Bytes>, r: Record) returns (o: Record)
    requires FaithfulSnapshots(h) && Reviewed(h, s)
    requires copy in s.copies && copy.semantic == "" && Recover(h, copy, read).Some?
    requires Knows(Next(h, s, MigrateCopy(copy, read)), r)
    ensures Faithful(h, r) && Knows(s, o) && o.path == r.path && o.raw == r.raw && o.reviewed == r.reviewed
  {
    o := Unmigrated(h, s, copy, read, r);
    assert Faithful(h, o);
    FingerprintSettlesReview(h, s, read.value, copy);
    if o.raw == copy.raw {
      FingerprintSettlesReview(h, s, read.value, o);
    }
  }

  lemma MigrateKeepsReviewed(h: Host, s: System, copy: Record, read: Option<Bytes>)
    requires FaithfulSnapshots(h) && Reviewed(h, s)
    ensures Reviewed(h, Next(h, s, MigrateCopy(copy, read)))
  {
    if copy in s.copies && copy.semantic == "" && Recover(h, copy, read).Some? {
      var t := Next(h, s, MigrateCopy(copy, read));
      forall r | Knows(t, r) ensures Faithful(h, r) {
        var _ := MigratedRecord(h, s, copy, read, r);
      }
      forall r, c | Knows(t, r) && Knows(t, c) && SameRecord(h, r, c) ensures r.reviewed == c.reviewed {
        var o := MigratedRecord(h, s, copy, read, r);
        var p := MigratedRecord(h, s, copy, read, c);
        assert SameRecord(h, o, p);
      }
    }
  }

  /** The known record a migrated one came from. */
  ghost function Unmigrated(h: Host, s: System, copy: Record, read: Option<Bytes>, r: Record): (o: Record)
    requires copy in s.copies && copy.semantic == "" && Recover(h, copy, read).Some?
    requires Knows(Next(h, s, MigrateCopy(copy, read)), r)
    ensures Knows(s, o) && o.path == r.path && o.raw == r.raw && o.reviewed == r.reviewed
    ensures o == r || (o.raw == copy.raw && r.semantic == h.hash(Recover(h, copy, read).value))
  {
    var t := Next(h, s, MigrateCopy(copy, read));
    if r in t.ledger.trusted then
      var i :| 0 <= i < |t.ledger.trusted| && t.ledger.trusted[i] == r;
      assert s.ledger.trusted[i] in s.ledger.trusted;
      s.ledger.trusted[i]
    else if r in s.copies then r
    else copy
  }

  lemma RefreshKeepsReviewed(h: Host, s: System, copy: Record, scanned: Bytes)
    requires FaithfulSnapshots(h) && Reviewed(h, s)
    ensures Reviewed(h, Next(h, s, RefreshCopy(copy, scanned)))
  {
    var t := Next(h, s, RefreshCopy(copy, scanned));
    if copy in s.copies && Recheck(h, copy, Some(scanned)).Inert? {
      assert Faithful(h, copy);
      assert copy.reviewed == h.semantic(scanned);
      forall r | Knows(t, r)
        ensures Faithful(h, r)
        ensures Knows(s, r) || (r.raw == h.hash(scanned) && r.reviewed == h.semantic(scanned))
      {
        if r in t.ledger.trusted {
          var i :| 0 <= i < |t.ledger.trusted| && t.ledger.trusted[i] == r;
          var o := s.ledger.trusted[i];
          assert o in s.ledger.trusted && Knows(s, o) && Faithful(h, o);
        }
      }
      forall r | Knows(t, r) && r.raw == h.hash(scanned) ensures r.reviewed == h.semantic(scanned) {
        if Knows(s, r) {
          FingerprintSettlesReview(h, s, scanned, r);
        }
      }
    }
  }

  lemma NextKeepsReviewed(h: Host, s: System, a: Action)
    requires FaithfulSnapshots(h) && Reviewed(h, s)
    ensures Reviewed(h, Next(h, s, a))
  {
    match a
    case Trust(path, stat, capture) =>
      if Admit(h, path, stat).Ok? && capture.scan.Some? {
        TrustKeepsReviewed(h, s, Admit(h, path, stat).value, capture.scan.value);
      }
    case MigrateCopy(copy, read) => MigrateKeepsReviewed(h, s, copy, read);
    case RefreshCopy(copy, scanned) => RefreshKeepsReviewed(h, s, copy, scanned);
    case Harden(path, stat) => NextOnlyForgets(h, s, a);
    case Untrust(path) => NextOnlyForgets(h, s, a);
    case Unharden(path) => NextOnlyForgets(h, s, a);
    case TakeCopy(path) => NextOnlyForgets(h, s, a);
    case EvictCopy(copy) => NextOnlyForgets(h, s, a);
  }

  lemma NextOnlyForgets(h: Host, s: System, a: Action)
    requires !a.Trust? && !a.MigrateCopy? && !a.RefreshCopy?
    ensures forall r | Knows(Next(h, s, a), r) :: Knows(s, r)
  {
  }

  /** Over every run, whatever stale copies it acts on, every record names exactly what was reviewed. */
  lemma {:induction false} RunKeepsReviewed(h: Host, s: System, actions: seq<Action>)
    requires FaithfulSnapshots(h) && Reviewed(h, s)
    ensures Reviewed(h, Run(h, s, actions))
    decreases |actions|
  {
    if actions != [] {
      RunKeepsReviewed(h, s, actions[..|actions| - 1]);
      NextKeepsReviewed(h, Run(h, s, actions[..|actions| - 1]), actions[|actions| - 1]);
    }
  }

  /** A trusted repository stays without a warning exactly while its configuration means what was reviewed. */
  lemma QuietExactlyWhileReviewed(h: Host, s: System, actions: seq<Action>, r: Record, scan: Option<Bytes>)
    requires FaithfulSnapshots(h) && Reviewed(h, s)
    requires Knows(Run(h, s, actions), r) && r.semantic != ""
    ensures !Recheck(h, r, scan).Drift? <==> scan.Some? && h.semantic(scan.value) == r.reviewed
    ensures Recheck(h, r, scan).Silent? <==> scan.Some? && h.hash(scan.value) == r.raw
  {
    RunKeepsReviewed(h, s, actions);
    assert Faithful(h, r);
  }

  // ------------------------------------------------------------------------------------------------
  // Result 2: a repository is never both trusted and hardened, and the spawn registry agrees
  // ------------------------------------------------------------------------------------------------

  /** No trusted and hardened entry share a form; the registry is the trust-root image of the trusted list. */
  ghost predicate Exclusive(h: Host, l: Ledger) {
    && (forall r, p | r in l.trusted && p in l.hardened :: !Overlaps(h, r.path, p))
    && l.registry == Mirror(h, l.trusted)
  }

  /** No two entries of one list share a form. */
  ghost predicate Apart(h: Host, paths: seq<Path>) {
    paths == [] || ((forall p | p in paths[1..] :: !Overlaps(h, paths[0], p)) && Apart(h, paths[1..]))
  }

  ghost predicate Unambiguous(h: Host, l: Ledger) {
    Apart(h, Paths(l.trusted)) && Apart(h, l.hardened)
  }

  lemma TrustKeepsExclusive(h: Host, l: Ledger, key: Path, scan: Bytes)
    requires Exclusive(h, l)
    ensures Exclusive(h, TrustKey(h, l, key, scan))
  {
    var t := TrustKey(h, l, key, scan);
    forall r, p | r in t.trusted && p in t.hardened ensures !Overlaps(h, r.path, p) {
      OverlapsSymmetric(h, r.path, p);
    }
  }

  lemma HardenKeepsExclusive(h: Host, l: Ledger, key: Path)
    requires Exclusive(h, l)
    ensures Exclusive(h, HardenKey(h, l, key))
  {
  }

  lemma RebindKeepsExclusive(h: Host, l: Ledger, trusted: seq<Record>)
    requires Exclusive(h, l) && Paths(trusted) == Paths(l.trusted)
    ensures Exclusive(h, l.(trusted := trusted))
  {
    PathsMembers(trusted);
    PathsMembers(l.trusted);
  }

  lemma NextKeepsExclusive(h: Host, s: System, a: Action)
    requires Exclusive(h, s.ledger)
    ensures Exclusive(h, Next(h, s, a).ledger)
  {
    var l, l' := s.ledger, Next(h, s, a).ledger;
    match a
    case Trust(path, stat, capture) =>
      if Admit(h, path, stat).Ok? && capture.scan.Some? {
        TrustKeepsExclusive(h, l, Admit(h, path, stat).value, capture.scan.value);
      }
    case Harden(path, stat) =>
      if Admit(h, path, stat).Ok? {
        HardenKeepsExclusive(h, l, Admit(h, path, stat).value);
      }
    case MigrateCopy(copy, read) =>
      RewritingKeepsPaths(h, s, a);
      RebindKeepsExclusive(h, l, l'.trusted);
    case RefreshCopy(copy, scanned) =>
      RewritingKeepsPaths(h, s, a);
      RebindKeepsExclusive(h, l, l'.trusted);
    case Untrust(path) =>
    case Unharden(path) =>
    case TakeCopy(path) =>
    case EvictCopy(copy) =>
  }

  lemma {:induction false} RunKeepsExclusive(h: Host, s: System, actions: seq<Action>)
    requires Exclusive(h, s.ledger)
    ensures Exclusive(h, Run(h, s, actions).ledger)
    decreases |actions|
  {
    if actions != [] {
      RunKeepsExclusive(h, s, actions[..|actions| - 1]);
      NextKeepsExclusive(h, Run(h, s, actions[..|actions| - 1]), actions[|actions| - 1]);
    }
  }

  lemma RegistryWithinForms(h: Host, path: Path)
    requires CoherentPaths(h)
    ensures Spellings(h, Registered(h, path)) <= Forms(h, path)
  {
    var c := h.clean(path);
    assert h.trustRoot(c) == h.trustRoot(path);
    assert c != "" && h.canonical(c) != "";
    if h.trustRoot(c) != "" {
      assert IsRoot(h, h.trustRoot(c));
      assert h.canonical(h.trustRoot(c)) != "";
    }
  }

  /** A registered form of `p` comes from a trusted record that overlaps it. */
  lemma RegistryOverlaps(h: Host, records: seq<Record>, f: Path, p: Path) returns (r: Record)
    requires CoherentPaths(h) && f in Mirror(h, records) && f in Forms(h, p)
    ensures r in records && Overlaps(h, r.path, p)
  {
    var q :| q in Paths(records) && f in Spellings(h, Registered(h, q));
    PathsMembers(records);
    r :| r in records && r.path == q;
    RegistryWithinForms(h, q);
    assert f in Forms(h, q) * Forms(h, p);
  }

  /** In every reachable ledger no form of a hardened repository is registered, so none of them runs raw git. */
  lemma HardenedNeverRunsRaw(h: Host, s: System, actions: seq<Action>, p: Path)
    requires CoherentPaths(h) && Exclusive(h, s.ledger)
    requires p in Run(h, s, actions).ledger.hardened
    ensures Forms(h, p) !! Run(h, s, actions).ledger.registry
    ensures !RunsRawGit(h, Run(h, s, actions).ledger.registry, p)
    ensures !RunsRawGit(h, Run(h, s, actions).ledger.registry, Key(h, p))
  {
    RunKeepsExclusive(h, s, actions);
    var l := Run(h, s, actions).ledger;
    forall f | f in Forms(h, p) ensures f !in l.registry {
      if f in l.registry {
        var r := RegistryOverlaps(h, l.trusted, f, p);
      }
    }
    var c, k := h.clean(p), Key(h, p);
    assert c != "" && h.canonical(c) != "";
    assert h.clean(k) == k && h.canonical(k) != "";
    assert {c, h.canonical(c), k, h.canonical(k)} <= Forms(h, p);
  }

  /** The root a trusted record is registered under. */
  function RootOf(h: Host, r: Record): Path {
    h.clean(if h.trustRoot(r.path) != "" then h.trustRoot(r.path) else r.path)
  }

  /** What is registered: both spellings of every trusted record's root, the filesystem root and the like excepted. */
  lemma RegistryMeans(h: Host, records: seq<Record>, s: Path)
    ensures s in Mirror(h, records) <==>
            exists r :: r in records && RootOf(h, r) !in {"", ".", "/"} && (s == RootOf(h, r) || s == h.canonical(RootOf(h, r)))
  {
    PathsMembers(records);
    if r :| r in records && RootOf(h, r) !in {"", ".", "/"} && (s == RootOf(h, r) || s == h.canonical(RootOf(h, r))) {
      assert s in Spellings(h, Registered(h, r.path));
    }
  }

  /** And every trusted repository does run raw git under its root, in both spellings (the filesystem root excepted). */
  lemma TrustedRunsRaw(h: Host, l: Ledger, r: Record)
    requires CoherentPaths(h) && CoherentWorkTrees(h)
    requires Exclusive(h, l) && r in l.trusted && RootOf(h, r) !in {"", ".", "/"}
    ensures RunsRawGit(h, l.registry, RootOf(h, r)) && RunsRawGit(h, l.registry, h.canonical(RootOf(h, r)))
  {
    var root := RootOf(h, r);
    RegistryMeans(h, l.trusted, root);
    RegistryMeans(h, l.trusted, h.canonical(root));
    assert h.clean(root) == root;
    assert h.clean(h.canonical(h.clean(root))) == h.canonical(h.clean(root));
  }

  /**
   * The spawn rule: some form of the working directory is registered, and a linked worktree's own overlay, scanned
   * at that moment, adds nothing dangerous.
   */
  predicate SpawnsRaw(h: Host, registry: set<Path>, dir: Path, overlayClean: bool) {
    && (exists f | f in Forms(h, dir) :: RunsRawGit(h, registry, f))
    && (h.trustRoot(dir) == h.workTreeRoot(dir) || overlayClean)
  }

  /** What is registered resolves to itself, lies in no repository, or is a repository's root. */
  lemma RegisteredSpelling(h: Host, records: seq<Record>, x: Path)
    requires CoherentPaths(h) && x in Mirror(h, records)
    ensures h.canonical(x) == x || h.trustRoot(x) == "" || h.trustRoot(x) == x
  {
    var q :| q in Paths(records) && x in Spellings(h, Registered(h, q));
    if h.trustRoot(q) != "" {
      assert IsRoot(h, h.trustRoot(q));
    }
  }

  /** No form of the key of a hardened repository is registered. */
  lemma HardenedKeyIsUnregistered(h: Host, l: Ledger, p: Path, dir: Path)
    requires CoherentPaths(h) && Exclusive(h, l) && p in l.hardened && Overlaps(h, p, Key(h, dir))
    ensures Forms(h, Key(h, dir)) !! l.registry
  {
    forall f | f in Forms(h, Key(h, dir)) ensures f !in l.registry {
      if f in l.registry {
        var r := RegistryOverlaps(h, l.trusted, f, Key(h, dir));
        OverlapThroughKey(h, dir, r.path, p);
      }
    }
  }

  /** A root of the directory that is registered is registered as its own resolved spelling, or is its key. */
  lemma RegisteredInside(h: Host, l: Ledger, dir: Path, x: Path)
    requires CoherentPaths(h) && CoherentWorkTrees(h) && Exclusive(h, l) && h.trustRoot(dir) != ""
    requires Forms(h, Key(h, dir)) !! l.registry
    requires InNormalForm(h, x, h.trustRoot(dir))
    ensures RunsRawGit(h, l.registry, x) <==> h.canonical(x) in l.registry
    ensures RunsRawGit(h, l.registry, h.canonical(x)) <==> h.canonical(x) in l.registry
  {
    KeyForms(h, dir);
    assert h.clean(h.canonical(h.clean(x))) == h.canonical(h.clean(x));
    if x in l.registry {
      RegisteredSpelling(h, l.trusted, x);
    }
  }

  /**
   * Inside a hardened repository raw git runs in exactly the directories whose symlink-resolved spelling, or whose
   * linked worktree's, is itself registered: a link from the hardened repository to a trusted place.
   */
  lemma HardenedDirectoryRunsRawExactly(h: Host, s: System, actions: seq<Action>, p: Path, dir: Path, overlayClean: bool)
    requires CoherentPaths(h) && CoherentWorkTrees(h) && Exclusive(h, s.ledger)
    requires p in Run(h, s, actions).ledger.hardened && h.trustRoot(dir) != "" && Overlaps(h, p, h.trustRoot(dir))
    ensures var registry := Run(h, s, actions).ledger.registry;
            SpawnsRaw(h, registry, dir, overlayClean) <==>
              && (h.canonical(h.clean(dir)) in registry || h.canonical(h.workTreeRoot(dir)) in registry)
              && (h.trustRoot(dir) == h.workTreeRoot(dir) || overlayClean)
  {
    RunKeepsExclusive(h, s, actions);
    DirectoryRunsRaw(h, Run(h, s, actions).ledger, p, dir);
  }

  lemma DirectoryRunsRaw(h: Host, l: Ledger, p: Path, dir: Path)
    requires CoherentPaths(h) && CoherentWorkTrees(h) && Exclusive(h, l) && h.trustRoot(dir) != ""
    requires p in l.hardened && Overlaps(h, p, h.trustRoot(dir))
    ensures (exists f | f in Forms(h, dir) :: RunsRawGit(h, l.registry, f)) <==>
            h.canonical(h.clean(dir)) in l.registry || h.canonical(h.workTreeRoot(dir)) in l.registry
  {
    DirectoryForms(h, dir);
    HardenedKeyIsUnregistered(h, l, p, dir);
    RegisteredInside(h, l, dir, h.clean(dir));
    RegisteredInside(h, l, dir, h.trustRoot(dir));
    RegisteredInside(h, l, dir, h.workTreeRoot(dir));
    SomeFormRunsRaw(h, l.registry, Forms(h, dir), h.clean(dir), h.trustRoot(dir), h.workTreeRoot(dir));
  }

  lemma SomeFormRunsRaw(h: Host, registry: set<Path>, forms: set<Path>, c: Path, k: Path, w: Path)
    requires forms == {c, h.canonical(c), k, h.canonical(k), w, h.canonical(w)} && h.canonical(k) !in registry
    requires forall x | x in {c, k, w} ::
      && (RunsRawGit(h, registry, x) <==> h.canonical(x) in registry)
      && (RunsRawGit(h, registry, h.canonical(x)) <==> h.canonical(x) in registry)
    ensures (exists f | f in forms :: RunsRawGit(h, registry, f)) <==> h.canonical(c) in registry || h.canonical(w) in registry
  {
    assert c in {c, k, w} && k in {c, k, w} && w in {c, k, w};
  }

  lemma DirectoryForms(h: Host, dir: Path)
    requires CoherentPaths(h) && CoherentWorkTrees(h) && h.trustRoot(dir) != ""
    ensures var c, k, w := h.clean(dir), h.trustRoot(dir), h.workTreeRoot(dir);
            && k == Key(h, dir) && Forms(h, k) == {k, h.canonical(k)}
            && Forms(h, dir) == {c, h.canonical(c), k, h.canonical(k), w, h.canonical(w)}
            && InNormalForm(h, c, k) && InNormalForm(h, k, k) && InNormalForm(h, w, k)
  {
    DirectoryRoots(h, dir);
    FormsInRepository(h, dir);
    KeyForms(h, dir);
  }

  lemma FormsInRepository(h: Host, dir: Path)
    requires var c, k, w := h.clean(dir), h.trustRoot(dir), h.workTreeRoot(dir);
             && h.trustRoot(c) == k && h.workTreeRoot(c) == w
             && "" !in {c, h.canonical(c), k, h.canonical(k), w, h.canonical(w)}
    ensures var c, k, w := h.clean(dir), h.trustRoot(dir), h.workTreeRoot(dir);
            && k == Key(h, dir) && Forms(h, dir) == {c, h.canonical(c), k, h.canonical(k), w, h.canonical(w)}
  {
  }

  lemma DirectoryRoots(h: Host, dir: Path)
    requires CoherentPaths(h) && CoherentWorkTrees(h) && h.trustRoot(dir) != ""
    ensures var c, k, w := h.clean(dir), h.trustRoot(dir), h.workTreeRoot(dir);
            && h.trustRoot(c) == k && h.workTreeRoot(c) == w
            && InNormalForm(h, c, k) && InNormalForm(h, k, k) && InNormalForm(h, w, k)
            && "" !in {c, h.canonical(c), k, h.canonical(k), w, h.canonical(w)}
  {
    assert IsRoot(h, h.trustRoot(dir));
  }

  // ------------------------------------------------------------------------------------------------
  // What each decision does
  // ------------------------------------------------------------------------------------------------

  /** What both decisions ask of the path: named, absolute, and a directory. */
  predicate Admissible(h: Host, path: string, stat: Stat) {
    Text.TrimSpace(path) != "" && h.isAbs(h.clean(Text.TrimSpace(path))) && stat.Directory?
  }

  /** Trust and harden succeed exactly on such a path, trust only with a stored scan; a refusal changes nothing. */
  lemma AcceptedExactly(h: Host, l: Ledger, path: string, stat: Stat, capture: Capture)
    ensures var (t, o) := TrustGitRepo(h, l, path, stat, capture);
            && (o.Ok? <==>
                  Admissible(h, path, stat) && capture.scan.Some? && capture.rawStored && capture.semanticStored)
            && (o.Err? ==> t == l)
            && (Admissible(h, path, stat) ==>
                  && (o == Err(Unscannable) <==> capture.scan.None?)
                  && (o.Err? && capture.scan.Some? ==> o == Err(SnapshotNotStored)))
    ensures var (t, o) := HardenGitRepo(h, l, path, stat);
            (o.Ok? <==> Admissible(h, path, stat)) && (o.Err? ==> t == l)
  {
  }

  /** Either is refused by name: an empty path, a relative one, a missing directory, something else there. */
  lemma RefusedByName(h: Host, l: Ledger, path: string, stat: Stat, capture: Capture)
    ensures var p := Text.TrimSpace(path);
            var trust, harden := TrustGitRepo(h, l, path, stat, capture).1, HardenGitRepo(h, l, path, stat).1;
            && (p == "" <==> harden == Err(PathRequired))
            && (p != "" && !h.isAbs(h.clean(p)) <==> harden == Err(NotAbsolute))
            && (p != "" && h.isAbs(h.clean(p)) && stat.Missing? <==> harden == Err(NoSuchDirectory))
            && (p != "" && h.isAbs(h.clean(p)) && stat.NotDirectory? <==> harden == Err(NotADirectory))
            && (harden.Err? ==> trust == harden)
  {
  }

  function Overlapping(h: Host, path: Path): Path -> bool {
    p => Overlaps(h, p, path)
  }

  function OverlappingRecord(h: Host, path: Path): Record -> bool {
    (r: Record) => Overlaps(h, r.path, path)
  }

  lemma {:induction false} KeepHardenedInOrder(h: Host, paths: seq<Path>, path: Path)
    ensures KeptInOrder(paths, KeepHardened(h, paths, path), Overlapping(h, path))
  {
    var gone := Overlapping(h, path);
    if paths == [] {
      KeptNothing<Path>(gone);
    } else {
      KeepHardenedInOrder(h, paths[1..], path);
      KeptCons(paths[0], paths[1..], KeepHardened(h, paths[1..], path), gone);
      assert paths == [paths[0]] + paths[1..];
    }
  }

  lemma {:induction false} KeepTrustedInOrder(h: Host, records: seq<Record>, path: Path)
    ensures KeptInOrder(records, KeepTrusted(h, records, path), OverlappingRecord(h, path))
  {
    var gone := OverlappingRecord(h, path);
    if records == [] {
      KeptNothing<Record>(gone);
    } else {
      KeepTrustedInOrder(h, records[1..], path);
      KeptCons(records[0], records[1..], KeepTrusted(h, records[1..], path), gone);
      assert records == [records[0]] + records[1..];
    }
  }

  /** A list none of whose elements goes is kept as it is. */
  lemma {:induction false} KeepAll(h: Host, records: seq<Record>, path: Path)
    requires forall r | r in records :: !Overlaps(h, r.path, path)
    ensures KeepTrusted(h, records, path) == records
  {
    if records != [] {
      KeepAll(h, records[1..], path);
    }
  }

  lemma {:induction false} KeepAllHardened(h: Host, paths: seq<Path>, path: Path)
    requires forall p | p in paths :: !Overlaps(h, p, path)
    ensures KeepHardened(h, paths, path) == paths
  {
    if paths != [] {
      KeepAllHardened(h, paths[1..], path);
    }
  }

  /** The key is the trust root of the cleaned path where there is one. */
  lemma KeyMeans(h: Host, path: Path)
    ensures h.trustRoot(h.clean(path)) != "" ==> Key(h, path) == h.trustRoot(h.clean(path))
    ensures h.trustRoot(h.clean(path)) == "" ==> Key(h, path) == h.clean(path)
  {
  }

  /** What the user reviewed, as a new record holds it: a recheck of the same bytes is silent. */
  predicate RecordsReview(h: Host, r: Record, key: Path, scan: Bytes) {
    && r.path == key && r.raw == h.hash(scan) && r.semantic == h.hash(h.semantic(scan)) && r.reviewed == h.semantic(scan)
    && Recheck(h, r, Some(scan)) == Silent
  }

  /**
   * An accepted trust decision adds one record of what was reviewed under the repository's key, unless some record
   * overlaps it already, and takes exactly the hardened entries that overlap it away.
   */
  lemma TrustTakesEffect(h: Host, s: System, path: string, stat: Stat, capture: Capture)
    requires CoherentPaths(h) && Exclusive(h, s.ledger)
    requires TrustGitRepo(h, s.ledger, path, stat, capture).1.Ok?
    ensures var l, l', key := s.ledger, TrustGitRepo(h, s.ledger, path, stat, capture).0, Key(h, Text.TrimSpace(path));
            && Next(h, s, Trust(path, stat, capture)) == s.(ledger := l')
            && (if exists r :: r in l.trusted && Overlaps(h, r.path, key) then l'.trusted == l.trusted
                else |l'.trusted| == |l.trusted| + 1 && l.trusted <= l'.trusted
                     && RecordsReview(h, l'.trusted[|l.trusted|], key, capture.scan.value))
            && (exists r :: r in l'.trusted && Overlaps(h, r.path, key))
            && KeptInOrder(l.hardened, l'.hardened, Overlapping(h, key))
            && (forall p | p in l'.hardened :: !Overlaps(h, p, key))
  {
    var l, key := s.ledger, Key(h, Text.TrimSpace(path));
    TrustStepUnfolds(h, s, path, stat, capture);
    KeepHardenedInOrder(h, l.hardened, key);
    if exists r :: r in l.trusted && Overlaps(h, r.path, key) {
      TrustedIsNotHardened(h, l, Text.TrimSpace(path));
    } else {
      NewRecord(h, l, Text.TrimSpace(path), capture.scan.value);
    }
  }

  lemma TrustStepUnfolds(h: Host, s: System, path: string, stat: Stat, capture: Capture)
    requires TrustGitRepo(h, s.ledger, path, stat, capture).1.Ok?
    ensures capture.scan.Some?
    ensures var l' := TrustKey(h, s.ledger, Key(h, Text.TrimSpace(path)), capture.scan.value);
            TrustGitRepo(h, s.ledger, path, stat, capture).0 == l' && Next(h, s, Trust(path, stat, capture)) == s.(ledger := l')
  {
  }

  /** What overlaps a trusted record's repository is in no hardened entry, so none has to go. */
  lemma TrustedIsNotHardened(h: Host, l: Ledger, path: Path)
    requires CoherentPaths(h) && Exclusive(h, l) && exists r :: r in l.trusted && Overlaps(h, r.path, Key(h, path))
    ensures KeepHardened(h, l.hardened, Key(h, path)) == l.hardened
    ensures forall p | p in l.hardened :: !Overlaps(h, p, Key(h, path))
  {
    var r :| r in l.trusted && Overlaps(h, r.path, Key(h, path));
    forall p | p in l.hardened ensures !Overlaps(h, p, Key(h, path)) {
      if Overlaps(h, p, Key(h, path)) {
        OverlapThroughKey(h, path, r.path, p);
      }
    }
    KeepAllHardened(h, l.hardened, Key(h, path));
  }

  lemma NewRecord(h: Host, l: Ledger, path: Path, scan: Bytes)
    requires CoherentPaths(h) && !exists r :: r in l.trusted && Overlaps(h, r.path, Key(h, path))
    ensures var l', key := TrustKey(h, l, Key(h, path), scan), Key(h, path);
            && |l'.trusted| == |l.trusted| + 1 && l.trusted <= l'.trusted
            && RecordsReview(h, l'.trusted[|l.trusted|], key, scan)
            && Overlaps(h, l'.trusted[|l.trusted|].path, key) && l'.trusted[|l.trusted|] in l'.trusted
  {
    KeyForms(h, path);
    assert Key(h, path) in Forms(h, Key(h, path)) * Forms(h, Key(h, path));
  }

  /**
   * An accepted hardening appends the repository's key, unless some entry overlaps it already, and takes exactly the
   * trusted records that overlap it away; the repository then runs no raw git.
   */
  lemma HardenTakesEffect(h: Host, s: System, path: string, stat: Stat)
    requires CoherentPaths(h) && Exclusive(h, s.ledger)
    requires HardenGitRepo(h, s.ledger, path, stat).1.Ok?
    ensures var l, l', key := s.ledger, HardenGitRepo(h, s.ledger, path, stat).0, Key(h, Text.TrimSpace(path));
            && Next(h, s, Harden(path, stat)) == s.(ledger := l')
            && l'.hardened == (if exists p :: p in l.hardened && Overlaps(h, p, key) then l.hardened else l.hardened + [key])
            && (exists p :: p in l'.hardened && Overlaps(h, p, key))
            && KeptInOrder(l.trusted, l'.trusted, OverlappingRecord(h, key))
            && (forall r | r in l'.trusted :: !Overlaps(h, r.path, key))
            && !RunsRawGit(h, l'.registry, key)
  {
    var l, p := s.ledger, Text.TrimSpace(path);
    var l', key := HardenKey(h, l, Key(h, p)), Key(h, p);
    KeepTrustedInOrder(h, l.trusted, key);
    HardenKeyTakesEffect(h, l, p);
    if l'.trusted == l.trusted {
      KeepAll(h, l.trusted, key);
    }
    KeyRunsHardened(h, l', p);
  }

  lemma KeyRunsHardened(h: Host, l: Ledger, path: Path)
    requires CoherentPaths(h) && l.registry == Mirror(h, l.trusted)
    requires forall r | r in l.trusted :: !Overlaps(h, r.path, Key(h, path))
    ensures !RunsRawGit(h, l.registry, Key(h, path))
  {
    KeyForms(h, path);
    assert h.clean(Key(h, path)) == Key(h, path);
    if RunsRawGit(h, l.registry, Key(h, path)) {
      var f :| f in l.registry && f in Forms(h, Key(h, path));
      var r := RegistryOverlaps(h, l.trusted, f, Key(h, path));
    }
  }

  /**
   * Removing trust is refused exactly for a blank path; otherwise exactly the records that overlap the trimmed path
   * go, the hardened list stays, and the registry follows. An eviction is the removal of its copy's path.
   */
  lemma UntrustTakesEffect(h: Host, s: System, path: string)
    requires Exclusive(h, s.ledger)
    ensures var p, l, l' := Text.TrimSpace(path), s.ledger, Next(h, s, Untrust(path)).ledger;
            && RemoveTrustedGitRepo(h, l, path) == (l', if p == "" then Err(PathRequired) else Ok(()))
            && Next(h, s, Untrust(path)).copies == s.copies && l'.hardened == l.hardened
            && (if p == "" then l' == l else KeptInOrder(l.trusted, l'.trusted, OverlappingRecord(h, p)))
            && l'.registry == Mirror(h, l'.trusted)
            && (forall copy | copy in s.copies && copy.path == path :: Next(h, s, EvictCopy(copy)) == Next(h, s, Untrust(path)))
  {
    var p, l := Text.TrimSpace(path), s.ledger;
    KeepTrustedInOrder(h, l.trusted, p);
    if !exists r :: r in l.trusted && Overlaps(h, r.path, p) {
      KeepAll(h, l.trusted, p);
    }
  }

  /** Removing a hardening likewise; it never touches the trusted list or the registry. */
  lemma UnhardenTakesEffect(h: Host, s: System, path: string)
    ensures var p, l, l' := Text.TrimSpace(path), s.ledger, Next(h, s, Unharden(path)).ledger;
            && RemoveHardenGitRepo(h, l, path) == (l', if p == "" then Err(PathRequired) else Ok(()))
            && Next(h, s, Unharden(path)).copies == s.copies && l'.trusted == l.trusted && l'.registry == l.registry
            && (if p == "" then l' == l else KeptInOrder(l.hardened, l'.hardened, Overlapping(h, p)))
            && (p != "" ==> forall q | q in l'.hardened :: !Overlaps(h, q, p))
  {
    KeepHardenedInOrder(h, s.ledger.hardened, Text.TrimSpace(path));
  }

  /** A copy is the first record that overlaps the path asked for. */
  lemma CopyTakesEffect(h: Host, s: System, path: Path)
    ensures var t := Next(h, s, TakeCopy(path));
            && t.ledger == s.ledger
            && (forall i | FirstOverlap(h, s.ledger.trusted, path, i) :: t.copies == s.copies + {s.ledger.trusted[i]})
            && ((forall r | r in s.ledger.trusted :: !Overlaps(h, r.path, path)) ==> t.copies == s.copies)
  {
    var e := EntryFor(h, s.ledger.trusted, path);
    forall i | FirstOverlap(h, s.ledger.trusted, path, i) ensures e == Some(s.ledger.trusted[i]) {
      assert s.ledger.trusted[i] in s.ledger.trusted;
    }
  }

  /** The record a migration or a refresh rewrites is told by its cleaned path and its raw fingerprint. */
  predicate StandsFor(h: Host, copy: Record, r: Record) {
    h.clean(r.path) == h.clean(copy.path) && r.raw == copy.raw
  }

  /**
   * Migrating a copy gives exactly the records it stands for that lack one the semantic fingerprint of the stored
   * bytes, provided these are what the raw fingerprint names and can be interpreted; else it changes nothing.
   */
  lemma MigrateTakesEffect(h: Host, s: System, copy: Record, read: Option<Bytes>)
    requires copy in s.copies && copy.semantic == ""
    ensures var l, t := s.ledger, Next(h, s, MigrateCopy(copy, read));
            if copy.raw == "" || read.None? || h.hash(read.value) != copy.raw || h.interpret(read.value).None? then t == s
            else
              var mark := h.hash(h.interpret(read.value).value);
              && t.ledger.hardened == l.hardened && t.ledger.registry == l.registry && |t.ledger.trusted| == |l.trusted|
              && (forall i | 0 <= i < |l.trusted| :: t.ledger.trusted[i] ==
                    l.trusted[i].(semantic :=
                      if StandsFor(h, copy, l.trusted[i]) && l.trusted[i].semantic == "" then mark else l.trusted[i].semantic))
              && t.copies == if exists r :: r in l.trusted && StandsFor(h, copy, r) && r.semantic == ""
                             then s.copies + {copy.(semantic := mark)} else s.copies
  {
    forall r ensures StandsFor(h, copy, r) == SameRecord(h, r, copy) {
    }
  }

  /**
   * A refresh moves the raw fingerprint of exactly the records the copy stands for to the bytes found, provided they
   * mean what the copy's semantic fingerprint names; else it changes nothing.
   */
  lemma RefreshTakesEffect(h: Host, s: System, copy: Record, scanned: Bytes)
    requires copy in s.copies
    ensures var l, t := s.ledger, Next(h, s, RefreshCopy(copy, scanned));
            if h.hash(h.semantic(scanned)) != copy.semantic then t == s
            else
              && t.copies == s.copies && t.ledger == l.(trusted := t.ledger.trusted) && |t.ledger.trusted| == |l.trusted|
              && forall i | 0 <= i < |l.trusted| :: t.ledger.trusted[i] ==
                   l.trusted[i].(raw := if StandsFor(h, copy, l.trusted[i]) then h.hash(scanned) else l.trusted[i].raw)
  {
  }

  lemma HardenKeyTakesEffect(h: Host, l: Ledger, path: Path)
    requires CoherentPaths(h) && Exclusive(h, l)
    ensures var l' := HardenKey(h, l, Key(h, path));
            && (exists p :: p in l'.hardened && Overlaps(h, p, Key(h, path)))
            && (forall r | r in l'.trusted :: !Overlaps(h, r.path, Key(h, path)))
            && l'.registry == Mirror(h, l'.trusted)
  {
    var key := Key(h, path);
    var l' := HardenKey(h, l, key);
    if p :| p in l.hardened && Overlaps(h, p, key) {
      forall r | r in l'.trusted ensures !Overlaps(h, r.path, key) {
        if Overlaps(h, r.path, key) {
          OverlapThroughKey(h, path, r.path, p);
        }
      }
    } else {
      KeyForms(h, path);
      var added := l'.hardened[|l.hardened|];
      assert key in Forms(h, added) * Forms(h, key);
      assert added in l'.hardened && Overlaps(h, added, key);
    }
  }

  lemma PathsSplit(records: seq<Record>)
    requires records != []
    ensures Paths(records) == [records[0].path] + Paths(records[1..])
  {
  }

  lemma {:induction false} KeepPaths(h: Host, records: seq<Record>, path: Path)
    ensures Paths(KeepTrusted(h, records, path)) == KeepHardened(h, Paths(records), path)
    decreases |records|
  {
    if records != [] {
      KeepPaths(h, records[1..], path);
      PathsSplit(records);
      assert Paths(records)[1..] == Paths(records[1..]) && Paths(records)[0] == records[0].path;
      if !Overlaps(h, records[0].path, path) {
        var kept := KeepTrusted(h, records[1..], path);
        PathsSplit([records[0]] + kept);
        assert ([records[0]] + kept)[1..] == kept;
      }
    }
  }

  lemma {:induction false} KeepStaysApart(h: Host, paths: seq<Path>, path: Path)
    requires Apart(h, paths)
    ensures Apart(h, KeepHardened(h, paths, path))
    decreases |paths|
  {
    if paths != [] {
      KeepStaysApart(h, paths[1..], path);
      var kept := KeepHardened(h, paths[1..], path);
      assert ([paths[0]] + kept)[1..] == kept;
    }
  }

  lemma {:induction false} AppendStaysApart(h: Host, paths: seq<Path>, p: Path)
    requires Apart(h, paths) && forall q | q in paths :: !Overlaps(h, q, p)
    ensures Apart(h, paths + [p])
    decreases |paths|
  {
    if paths != [] {
      AppendStaysApart(h, paths[1..], p);
      assert (paths + [p])[1..] == paths[1..] + [p];
    }
  }

  lemma TrustKeyKeepsUnambiguous(h: Host, l: Ledger, key: Path, scan: Bytes)
    requires Unambiguous(h, l)
    ensures Unambiguous(h, TrustKey(h, l, key, scan))
  {
    var l' := TrustKey(h, l, key, scan);
    if l' != l {
      PathsMembers(l.trusted);
      KeepStaysApart(h, l.hardened, key);
      AppendStaysApart(h, Paths(l.trusted), key);
      assert Paths(l'.trusted) == Paths(l.trusted) + [key];
    }
  }

  lemma HardenKeyKeepsUnambiguous(h: Host, l: Ledger, key: Path)
    requires Unambiguous(h, l)
    ensures Unambiguous(h, HardenKey(h, l, key))
  {
    if HardenKey(h, l, key) != l {
      KeepPaths(h, l.trusted, key);
      KeepStaysApart(h, Paths(l.trusted), key);
      AppendStaysApart(h, l.hardened, key);
    }
  }

  lemma RemovalKeepsUnambiguous(h: Host, l: Ledger, path: string)
    requires Unambiguous(h, l)
    ensures Unambiguous(h, RemoveTrustedGitRepo(h, l, path).0) && Unambiguous(h, RemoveHardenGitRepo(h, l, path).0)
  {
    KeepPaths(h, l.trusted, Text.TrimSpace(path));
    KeepStaysApart(h, Paths(l.trusted), Text.TrimSpace(path));
    KeepStaysApart(h, l.hardened, Text.TrimSpace(path));
  }

  lemma RewritingKeepsPaths(h: Host, s: System, a: Action)
    requires a.MigrateCopy? || a.RefreshCopy?
    ensures var l, l' := s.ledger, Next(h, s, a).ledger; Paths(l'.trusted) == Paths(l.trusted) && l'.hardened == l.hardened
  {
  }

  lemma NextKeepsUnambiguous(h: Host, s: System, a: Action)
    requires Unambiguous(h, s.ledger)
    ensures Unambiguous(h, Next(h, s, a).ledger)
  {
    var l, l' := s.ledger, Next(h, s, a).ledger;
    match a
    case Trust(path, stat, capture) =>
      if Admit(h, path, stat).Ok? && capture.scan.Some? {
        TrustKeyKeepsUnambiguous(h, l, Admit(h, path, stat).value, capture.scan.value);
      }
    case Harden(path, stat) =>
      if Admit(h, path, stat).Ok? {
        HardenKeyKeepsUnambiguous(h, l, Admit(h, path, stat).value);
      }
    case Untrust(path) => RemovalKeepsUnambiguous(h, l, path);
    case Unharden(path) => RemovalKeepsUnambiguous(h, l, path);
    case TakeCopy(path) =>
    case MigrateCopy(copy, read) => RewritingKeepsPaths(h, s, a);
    case RefreshCopy(copy, scanned) => RewritingKeepsPaths(h, s, a);
    case EvictCopy(copy) => RemovalKeepsUnambiguous(h, l, copy.path);
  }

  /** No run ever puts two entries for one repository into either list. */
  lemma {:induction false} RunKeepsUnambiguous(h: Host, s: System, actions: seq<Action>)
    requires Unambiguous(h, s.ledger)
    ensures Unambiguous(h, Run(h, s, actions).ledger)
    decreases |actions|
  {
    if actions != [] {
      RunKeepsUnambiguous(h, s, actions[..|actions| - 1]);
      NextKeepsUnambiguous(h, Run(h, s, actions[..|actions| - 1]), actions[|actions| - 1]);
    }
  }

  // ------------------------------------------------------------------------------------------------
  // Eviction, and where it falls short
  // ------------------------------------------------------------------------------------------------

  /**
   * Removal trims its argument, so an eviction reaches exactly the records that overlap the trimmed path of the
   * copy: on any machine a record stays if and only if nothing is left of that path or it does not overlap it.
   */
  lemma EvictionReaches(h: Host, s: System, copy: Record, r: Record)
    requires copy in s.copies && r in s.ledger.trusted
    ensures var p := Text.TrimSpace(copy.path);
            r in Next(h, s, EvictCopy(copy)).ledger.trusted <==> p == "" || !Overlaps(h, r.path, p)
  {
    var p := Text.TrimSpace(copy.path);
    var kept := KeepTrusted(h, s.ledger.trusted, p);
    assert r in kept <==> !Overlaps(h, r.path, p);
  }

  /**
   * Evicting a copy of a recorded root forgets its repository if and only if the trimmed path still resolves to it;
   * otherwise the record that drifted stays trusted.
   */
  lemma EvictForgetsExactlyResolvingPaths(h: Host, s: System, copy: Record)
    requires CoherentPaths(h) && copy in s.copies && copy in s.ledger.trusted && copy.path == Key(h, copy.path)
    ensures var p, trusted := Text.TrimSpace(copy.path), Next(h, s, EvictCopy(copy)).ledger.trusted;
            && ((forall r | r in trusted :: !Overlaps(h, r.path, copy.path)) <==>
                p != "" && h.canonical(copy.path) in Forms(h, p))
            && (copy in trusted <==> p == "" || h.canonical(copy.path) !in Forms(h, p))
  {
    var p, k := Text.TrimSpace(copy.path), copy.path;
    KeyForms(h, k);
    assert k in Forms(h, k) * Forms(h, k);
    ResolvesToKey(h, k, p);
    OverlapsSymmetric(h, k, p);
    forall x | Overlaps(h, p, k) && Overlaps(h, x, k) ensures Overlaps(h, x, p) {
      OverlapThroughKey(h, k, x, p);
    }
    EvictionTakesTheRepository(h, s, copy);
  }

  /** When whatever overlaps the copy's path overlaps the trimmed one too, its repository goes as a whole or stays. */
  lemma EvictionTakesTheRepository(h: Host, s: System, copy: Record)
    requires copy in s.copies && copy in s.ledger.trusted && Overlaps(h, copy.path, copy.path)
    requires var p := Text.TrimSpace(copy.path);
             Overlaps(h, copy.path, p) ==> forall x :: Overlaps(h, x, copy.path) ==> Overlaps(h, x, p)
    ensures var p, trusted := Text.TrimSpace(copy.path), Next(h, s, EvictCopy(copy)).ledger.trusted;
            && ((forall r | r in trusted :: !Overlaps(h, r.path, copy.path)) <==> p != "" && Overlaps(h, copy.path, p))
            && (copy in trusted <==> p == "" || !Overlaps(h, copy.path, p))
  {
    var p := Text.TrimSpace(copy.path);
    EvictionReaches(h, s, copy, copy);
    forall r | r in s.ledger.trusted
      ensures r in Next(h, s, EvictCopy(copy)).ledger.trusted <==> p == "" || !Overlaps(h, r.path, p)
    {
      EvictionReaches(h, s, copy, r);
    }
  }

  lemma ResolvesToKey(h: Host, path: Path, x: Path)
    requires CoherentPaths(h)
    ensures Overlaps(h, x, Key(h, path)) <==> h.canonical(Key(h, path)) in Forms(h, x)
  {
    KeyForms(h, path);
    if Overlaps(h, x, Key(h, path)) {
      OverlapCarriesCanonical(h, path, x);
    } else {
      assert h.canonical(Key(h, path)) !in Forms(h, x) * Forms(h, Key(h, path));
    }
  }

  /** A copy whose path carries no outer white space takes every record of its repository with it. */
  lemma EvictForgets(h: Host, s: System, copy: Record)
    requires CoherentPaths(h) && copy in s.copies && copy.path != ""
    requires Text.TrimSpace(copy.path) == copy.path
    ensures forall r | r in Next(h, s, EvictCopy(copy)).ledger.trusted :: !Overlaps(h, r.path, copy.path)
  {
  }

  /** A machine with no repositories and no symbolic links. */
  function PlainHost(): Host {
    Host(p => if p == "" then "." else p, p => p != "", p => p, p => "", p => "",
         b => "#", b => b, b => Some(b))
  }

  lemma PlainHostIsCoherent()
    ensures CoherentPaths(PlainHost())
  {
  }

  lemma PlainForms(x: Path)
    requires x != ""
    ensures Forms(PlainHost(), x) == {x}
    ensures forall y | y != "" :: Overlaps(PlainHost(), x, y) <==> x == y
  {
    forall y | y != "" && Overlaps(PlainHost(), x, y) ensures x == y {
      var f :| f in Forms(PlainHost(), x) * Forms(PlainHost(), y);
    }
    assert x in Forms(PlainHost(), x) * Forms(PlainHost(), x);
  }

  /**
   * On a machine without repositories and links the copy's own record stays exactly when its path begins or ends
   * with white space, and it is then the record of the trimmed path that goes.
   */
  lemma PlainEviction(s: System, copy: Record, r: Record)
    requires copy in s.copies && r in s.ledger.trusted && copy.path != "" && r.path != ""
    ensures r in Next(PlainHost(), s, EvictCopy(copy)).ledger.trusted <==> Text.TrimSpace(copy.path) != r.path
  {
    var p := Text.TrimSpace(copy.path);
    EvictionReaches(PlainHost(), s, copy, r);
    PlainForms(r.path);
  }

  /** A machine where /w is a linked worktree of the repository at /m. */
  function WorktreeHost(): Host {
    Host(p => if p == "" then "." else p, p => p != "", p => p,
         p => if p == "/m" || p == "/w" then "/m" else "",
         p => if p == "/m" || p == "/w" then p else "",
         b => "#", b => b, b => Some(b))
  }

  /** A machine where /n/l is a link inside the repository /n to the plain directory /p. */
  function LinkHost(): Host {
    Host(p => if p == "" then "." else p, p => p != "", p => if p == "/n/l" then "/p" else p,
         p => if p == "/n" || p == "/n/l" then "/n" else "",
         p => if p == "/n" || p == "/n/l" then "/n" else "",
         b => "#", b => b, b => Some(b))
  }

  lemma LinkHostIsCoherent()
    ensures CoherentPaths(LinkHost())
  {
    assert "/p" != "/n" by { assert "/p"[1] != "/n"[1]; }
  }

  lemma LinkHostWorkTrees()
    ensures CoherentWorkTrees(LinkHost())
  {
  }

  lemma LinkForms()
    ensures Forms(LinkHost(), "/p") == {"/p"} && Forms(LinkHost(), "/n") == {"/n"}
    ensures Forms(LinkHost(), "/n/l") == {"/n/l", "/p", "/n"}
  {
    assert "/p" != "/n" by { assert "/p"[1] != "/n"[1]; }
  }

  /** Overlap is not transitive: two unrelated paths can both overlap a third one through a symbolic link. */
  lemma OverlapNotTransitive()
    ensures exists h: Host, a: Path, b: Path, c: Path ::
      CoherentPaths(h) && Overlaps(h, a, b) && Overlaps(h, b, c) && !Overlaps(h, a, c)
  {
    LinkHostIsCoherent();
    LinkForms();
    var h := LinkHost();
    assert Overlaps(h, "/p", "/n/l") by {
      assert "/p" in Forms(h, "/p") * Forms(h, "/n/l");
    }
    assert Overlaps(h, "/n/l", "/n") by {
      assert "/n" in Forms(h, "/n/l") * Forms(h, "/n");
    }
    assert !Overlaps(h, "/p", "/n") by {
      assert "/p"[1] != "/n"[1];
    }
  }

  /**
   * It happens: /n is a hardened repository, the plain directory /p is trusted, and the link /n/l from one to the
   * other runs raw git though it lies in /n.
   */
  lemma HardenedLinkRunsRaw(record: Record)
    requires record.path == "/p"
    ensures var h, l := LinkHost(), Ledger([record], ["/n"], Mirror(LinkHost(), [record]));
            && CoherentPaths(h) && CoherentWorkTrees(h) && Exclusive(h, l) && h.trustRoot("/n/l") == "/n"
            && SpawnsRaw(h, l.registry, "/n/l", false) && !SpawnsRaw(h, l.registry, "/n", false)
  {
    LinkHostIsCoherent();
    LinkHostWorkTrees();
    LinkRegistry(record);
    LinkSpawns();
  }

  lemma LinkSpawns()
    ensures !Overlaps(LinkHost(), "/p", "/n")
    ensures SpawnsRaw(LinkHost(), {"/p"}, "/n/l", false) && !SpawnsRaw(LinkHost(), {"/p"}, "/n", false)
  {
    LinkForms();
    assert "/p"[1] != "/n"[1];
    assert "/p" in Forms(LinkHost(), "/n/l") && RunsRawGit(LinkHost(), {"/p"}, "/p");
  }

  lemma LinkRegistry(record: Record)
    requires record.path == "/p"
    ensures Mirror(LinkHost(), [record]) == {"/p"}
  {
    assert "/p"[1] != "/n"[1];
    assert Paths([record])[0] == "/p";
    assert Registered(LinkHost(), "/p") == "/p" && Spellings(LinkHost(), "/p") == {"/p"};
  }
}
