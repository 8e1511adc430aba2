/** The two trust lists as the configuration loader admits them, and why a loaded ledger starts out valid. */
module TrustLoading {
  import opened Wrappers
  import opened GitTrust
  import Text

  datatype LoadError =
    EmptyPath | NotAbsolutePath(path: Path) | BadFingerprint(path: Path) | DuplicatePath(path: Path) | Conflict(path: Path)

  predicate Distinct(paths: seq<Path>) {
    forall i, j | 0 <= i < j < |paths| :: paths[i] != paths[j]
  }

  function CleanRecords(h: Host, records: seq<Record>): (out: seq<Record>)
    ensures |out| == |records|
    ensures forall i | 0 <= i < |out| :: out[i] == records[i].(path := h.clean(records[i].path))
  {
    seq(|records|, i requires 0 <= i < |records| => records[i].(path := h.clean(records[i].path)))
  }

  function CleanPaths(h: Host, paths: seq<Path>): (out: seq<Path>)
    ensures |out| == |paths| && forall i | 0 <= i < |out| :: out[i] == h.clean(paths[i])
  {
    seq(|paths|, i requires 0 <= i < |paths| => h.clean(paths[i]))
  }

  predicate Named(h: Host, path: Path) {
    path != "" && h.isAbs(h.clean(path))
  }

  /** The lists a configuration may hold: absolute, well formed, distinct once cleaned, and exclusive. */
  ghost predicate Loadable(h: Host, wellFormed: Hash -> bool, trusted: seq<Record>, hardened: seq<Path>) {
    && TrustedLoadable(h, wellFormed, trusted)
    && (forall p | p in hardened :: Named(h, p))
    && Distinct(CleanPaths(h, hardened))
    && forall r, p | r in CleanRecords(h, trusted) && p in CleanPaths(h, hardened) :: !Overlaps(h, r.path, p)
  }

  ghost predicate TrustedLoadable(h: Host, wellFormed: Hash -> bool, trusted: seq<Record>) {
    && (forall r | r in trusted :: Named(h, r.path) && wellFormed(r.semantic))
    && Distinct(Paths(CleanRecords(h, trusted)))
  }

  /** Every form of every path in the list. */
  function FormsOf(h: Host, paths: seq<Path>): set<Path> {
    if paths == [] then {} else FormsOf(h, paths[..|paths| - 1]) + Forms(h, paths[|paths| - 1])
  }

  lemma {:induction false} FormsOfMembers(h: Host, paths: seq<Path>)
    ensures forall f :: f in FormsOf(h, paths) <==> exists p :: p in paths && f in Forms(h, p)
    decreases |paths|
  {
    if paths != [] {
      var n := |paths| - 1;
      assert paths == paths[..n] + [paths[n]];
      FormsOfMembers(h, paths[..n]);
    }
  }

  /** What the loader has against one trusted entry, given the paths already seen. */
  function Objection(h: Host, wellFormed: Hash -> bool, seen: set<Path>, repo: Record): (objection: Option<LoadError>)
    ensures objection.None? <==> Named(h, repo.path) && wellFormed(repo.semantic) && h.clean(repo.path) !in seen
    ensures objection.Some? ==> match objection.value
      case EmptyPath => repo.path == ""
      case NotAbsolutePath(p) => p == repo.path && !h.isAbs(h.clean(p))
      case BadFingerprint(p) => p == h.clean(repo.path) && !wellFormed(repo.semantic)
      case DuplicatePath(p) => p == h.clean(repo.path) && p in seen
      case Conflict(_) => false
  {
    if repo.path == "" then Some(EmptyPath)
    else if !h.isAbs(h.clean(repo.path)) then Some(NotAbsolutePath(repo.path))
    else if !wellFormed(repo.semantic) then Some(BadFingerprint(h.clean(repo.path)))
    else if h.clean(repo.path) in seen then Some(DuplicatePath(h.clean(repo.path)))
    else None
  }

  /** One more entry is loadable exactly when there is no objection to it. */
  lemma LoadableExtends(h: Host, wellFormed: Hash -> bool, trusted: seq<Record>, repo: Record, seen: set<Path>)
    requires forall p :: p in seen <==> p in Paths(CleanRecords(h, trusted))
    ensures TrustedLoadable(h, wellFormed, trusted + [repo])
       <==> TrustedLoadable(h, wellFormed, trusted) && Objection(h, wellFormed, seen, repo).None?
  {
    var paths := Paths(CleanRecords(h, trusted));
    assert Paths(CleanRecords(h, trusted + [repo])) == paths + [h.clean(repo.path)];
    assert forall k | 0 <= k < |paths| :: (paths + [h.clean(repo.path)])[k] == paths[k];
    assert (paths + [h.clean(repo.path)])[|paths|] == h.clean(repo.path);
  }

  lemma LoadableShrinks(h: Host, wellFormed: Hash -> bool, trusted: seq<Record>, n: nat)
    requires n <= |trusted| && TrustedLoadable(h, wellFormed, trusted)
    ensures TrustedLoadable(h, wellFormed, trusted[..n])
  {
    var paths := Paths(CleanRecords(h, trusted));
    assert Paths(CleanRecords(h, trusted[..n])) == paths[..n];
  }

  lemma PrefixDecides(h: Host, wellFormed: Hash -> bool, trusted: seq<Record>, n: nat)
    requires n <= |trusted| && !TrustedLoadable(h, wellFormed, trusted[..n])
    ensures !TrustedLoadable(h, wellFormed, trusted)
  {
    if TrustedLoadable(h, wellFormed, trusted) {
      LoadableShrinks(h, wellFormed, trusted, n);
    }
  }

  /** What one more record adds to the cleaned list and to its forms. */
  lemma CleanAppend(h: Host, records: seq<Record>, r: Record)
    ensures var clean := CleanRecords(h, records);
            var more := clean + [r.(path := h.clean(r.path))];
            && CleanRecords(h, records + [r]) == more
            && Paths(more) == Paths(clean) + [h.clean(r.path)]
            && FormsOf(h, Paths(more)) == FormsOf(h, Paths(clean)) + Forms(h, h.clean(r.path))
  {
    var clean := CleanRecords(h, records);
    var more := clean + [r.(path := h.clean(r.path))];
    assert CleanRecords(h, records + [r]) == more;
    assert Paths(more) == Paths(clean) + [h.clean(r.path)];
    assert Paths(more)[..|more| - 1] == Paths(clean);
  }

  /** Entry `i` is the first the loader objects to, with this objection. */
  ghost predicate FirstObjection(h: Host, wellFormed: Hash -> bool, trusted: seq<Record>, i: int, e: LoadError) {
    && 0 <= i < |trusted| && TrustedLoadable(h, wellFormed, trusted[..i])
    && exists seen: set<Path> :: (forall p :: p in seen <==> p in Paths(CleanRecords(h, trusted[..i])))
                                 && Objection(h, wellFormed, seen, trusted[i]) == Some(e)
  }

  /** Cleans the trusted list and collects the forms the hardened one must avoid. */
  method LoadTrusted(h: Host, wellFormed: Hash -> bool, trusted: seq<Record>)
    returns (loaded: Result<seq<Record>, LoadError>, forms: set<Path>)
    ensures loaded.Ok? <==> TrustedLoadable(h, wellFormed, trusted)
    ensures loaded.Ok? ==> loaded.value == CleanRecords(h, trusted)
    ensures loaded.Err? ==> exists i :: FirstObjection(h, wellFormed, trusted, i, loaded.error)
    ensures loaded.Ok? ==> forms == FormsOf(h, Paths(loaded.value))
  {
    var seen, clean: seq<Record> := {}, [];
    forms := {};
    for i := 0 to |trusted|
      invariant TrustedLoadable(h, wellFormed, trusted[..i])
      invariant clean == CleanRecords(h, trusted[..i])
      invariant forall p :: p in seen <==> p in Paths(clean)
      invariant forms == FormsOf(h, Paths(clean))
    {
      var repo := trusted[i];
      assert trusted[..i + 1] == trusted[..i] + [repo];
      LoadableExtends(h, wellFormed, trusted[..i], repo, seen);
      var objection := Objection(h, wellFormed, seen, repo);
      if objection.Some? {
        PrefixDecides(h, wellFormed, trusted, i + 1);
        assert FirstObjection(h, wellFormed, trusted, i, objection.value);
        return Err(objection.value), {};
      }
      var cleaned := h.clean(repo.path);
      CleanAppend(h, trusted[..i], repo);
      seen, forms, clean := seen + {cleaned}, forms + Forms(h, cleaned), clean + [repo.(path := cleaned)];
    }
    assert trusted[..|trusted|] == trusted;
    loaded := Ok(clean);
  }

  /** Cleans the hardened list, refusing an entry that shares a form with the trusted one. */
  method LoadHardened(h: Host, forms: set<Path>, hardened: seq<Path>) returns (loaded: Result<seq<Path>, LoadError>)
    ensures loaded.Ok? <==>
      && (forall p | p in hardened :: Named(h, p))
      && Distinct(CleanPaths(h, hardened))
      && (forall p | p in CleanPaths(h, hardened) :: Forms(h, p) !! forms)
    ensures loaded.Ok? ==> loaded.value == CleanPaths(h, hardened)
    ensures loaded.Err? && loaded.error.Conflict? ==>
      loaded.error.path in CleanPaths(h, hardened) && Forms(h, loaded.error.path) * forms != {}
  {
    var seen, clean: seq<Path> := {}, [];
    ghost var want := CleanPaths(h, hardened);
    for i := 0 to |hardened|
      invariant clean == want[..i]
      invariant forall p | p in hardened[..i] :: Named(h, p)
      invariant Distinct(want[..i])
      invariant forall p :: p in seen <==> p in want[..i]
      invariant forall p | p in want[..i] :: Forms(h, p) !! forms
    {
      var repo := hardened[i];
      assert repo in hardened && want[..i + 1] == want[..i] + [want[i]];
      if repo == "" {
        return Err(EmptyPath);
      }
      var cleaned := h.clean(repo);
      if !h.isAbs(cleaned) {
        return Err(NotAbsolutePath(repo));
      }
      if cleaned in seen {
        ghost var k :| 0 <= k < i && want[k] == cleaned;
        return Err(DuplicatePath(cleaned));
      }
      if Forms(h, cleaned) * forms != {} {
        assert want[i] in want;
        return Err(Conflict(cleaned));
      }
      seen, clean := seen + {cleaned}, clean + [cleaned];
    }
    assert want[..|hardened|] == want && hardened[..|hardened|] == hardened;
    loaded := Ok(clean);
  }

  /** The loader's verdict on both lists. */
  method LoadTrustLists(h: Host, wellFormed: Hash -> bool, trusted: seq<Record>, hardened: seq<Path>)
    returns (loaded: Result<(seq<Record>, seq<Path>), LoadError>)
    ensures loaded.Ok? <==> Loadable(h, wellFormed, trusted, hardened)
    ensures loaded.Ok? ==> loaded.value == (CleanRecords(h, trusted), CleanPaths(h, hardened))
  {
    var t, forms := LoadTrusted(h, wellFormed, trusted);
    if t.Err? {
      return Err(t.error);
    }
    var p := LoadHardened(h, forms, hardened);
    DisjointFromUnion(h, t.value, CleanPaths(h, hardened));
    if p.Err? {
      return Err(p.error);
    }
    loaded := Ok((t.value, p.value));
  }

  /** Avoiding the union of the trusted forms is not overlapping any trusted record. */
  lemma DisjointFromUnion(h: Host, records: seq<Record>, paths: seq<Path>)
    ensures (forall p | p in paths :: Forms(h, p) !! FormsOf(h, Paths(records)))
       <==> (forall r, p | r in records && p in paths :: !Overlaps(h, r.path, p))
  {
    var forms := FormsOf(h, Paths(records));
    PathsMembers(records);
    FormsOfMembers(h, Paths(records));
    forall p | p in paths
      ensures Forms(h, p) !! forms <==> (forall r | r in records :: !Overlaps(h, r.path, p))
    {
      forall r | r in records && Overlaps(h, r.path, p) ensures !(Forms(h, p) !! forms) {
        var f :| f in Forms(h, r.path) * Forms(h, p);
        assert r.path in Paths(records);
      }
      if f :| f in forms && f in Forms(h, p) {
        var q :| q in Paths(records) && f in Forms(h, q);
        var r :| r in records && r.path == q;
        assert f in Forms(h, r.path) * Forms(h, p);
        assert Overlaps(h, r.path, p);
      }
    }
  }

  /**
   * Every loadable configuration starts a run in which the results of GitTrust hold, given only that its
   * records were written for what the user reviewed.
   */
  lemma LoadableStartsValid(h: Host, wellFormed: Hash -> bool, trusted: seq<Record>, hardened: seq<Path>)
    requires CoherentPaths(h) && Loadable(h, wellFormed, trusted, hardened)
    requires forall r | r in trusted :: Faithful(h, r)
    ensures var t := CleanRecords(h, trusted);
            var s := System(Ledger(t, CleanPaths(h, hardened), Mirror(h, t)), {});
            Exclusive(h, s.ledger) && Reviewed(h, s)
  {
    CleanedRecordsAgree(h, trusted);
  }

  /** Cleaning a path moves no fingerprint, and records with one cleaned path are one record. */
  lemma CleanedRecordsAgree(h: Host, trusted: seq<Record>)
    requires CoherentPaths(h) && Distinct(Paths(CleanRecords(h, trusted)))
    requires forall r | r in trusted :: Faithful(h, r)
    ensures forall r | r in CleanRecords(h, trusted) :: Faithful(h, r)
    ensures forall r, c | r in CleanRecords(h, trusted) && c in CleanRecords(h, trusted) && SameRecord(h, r, c) :: r == c
  {
    var t := CleanRecords(h, trusted);
    forall r | r in t ensures Faithful(h, r) && h.clean(r.path) == r.path {
      CleanedRecord(h, trusted, r);
    }
    forall r, c | r in t && c in t && SameRecord(h, r, c) ensures r == c {
      OneRecordPerPath(t, r, c);
    }
  }

  lemma CleanedRecord(h: Host, trusted: seq<Record>, r: Record)
    requires CoherentPaths(h) && r in CleanRecords(h, trusted) && forall x | x in trusted :: Faithful(h, x)
    ensures Faithful(h, r) && h.clean(r.path) == r.path
  {
    var t := CleanRecords(h, trusted);
    var i :| 0 <= i < |t| && t[i] == r;
    assert trusted[i] in trusted;
    assert Faithful(h, trusted[i]) && r == trusted[i].(path := h.clean(trusted[i].path));
  }

  lemma OneRecordPerPath(t: seq<Record>, r: Record, c: Record)
    requires Distinct(Paths(t)) && r in t && c in t && r.path == c.path
    ensures r == c
  {
    var i :| 0 <= i < |t| && t[i] == r;
    var j :| 0 <= j < |t| && t[j] == c;
    assert Paths(t)[i] == Paths(t)[j];
  }

  /** Within one list the loader compares cleaned paths only: a worktree may be trusted beside its own repository. */
  lemma LoaderAdmitsOneRepositoryTwice()
    ensures TrustedLoadable(WorktreeHost(), _ => true, [Record("/m", "", "", []), Record("/w", "", "", [])])
    ensures Overlaps(WorktreeHost(), "/m", "/w")
  {
    var h := WorktreeHost();
    assert "/m" in Forms(h, "/m") * Forms(h, "/w");
    var trusted := [Record("/m", "", "", []), Record("/w", "", "", [])];
    var paths := Paths(CleanRecords(h, trusted));
    assert paths[0][1] == 'm' && paths[1][1] == 'w';
  }

  lemma TrimmedRepo()
    ensures Text.TrimSpace("/repo ") == "/repo"
  {
    assert "/repo "[..5] == "/repo";
    assert Text.TrimRightSpace("/repo ") == Text.TrimRightSpace("/repo");
  }

  lemma LoaderKeepsOuterWhiteSpace(first: Record, second: Record)
    requires first.path == "/repo" && second.path == "/repo "
    ensures Loadable(PlainHost(), _ => true, [first, second], [])
    ensures CleanRecords(PlainHost(), [first, second]) == [first, second]
  {
    var trusted := [first, second];
    assert CleanRecords(PlainHost(), trusted) == trusted;
    var paths := Paths(CleanRecords(PlainHost(), trusted));
    assert paths == ["/repo", "/repo "] && |paths[0]| != |paths[1]|;
  }

  /**
   * The loader does not trim: it admits "/repo" beside "/repo " as two repositories. When the second one drifts, its
   * eviction takes the first one's record and leaves its own.
   */
  lemma EvictionTakesTheWrongRecord(first: Record, second: Record)
    requires first.path == "/repo" && second.path == "/repo "
    ensures var h, trusted := PlainHost(), [first, second];
            && Loadable(h, _ => true, trusted, []) && CleanRecords(h, trusted) == trusted
            && var s := System(Ledger(trusted, [], Mirror(h, trusted)), {});
               var t := Run(h, s, [TakeCopy("/repo "), EvictCopy(second)]);
               second in t.copies && second in t.ledger.trusted && first !in t.ledger.trusted
  {
    LoaderKeepsOuterWhiteSpace(first, second);
    var h, trusted := PlainHost(), [first, second];
    var s := System(Ledger(trusted, [], Mirror(h, trusted)), {});
    SecondIsCopied(first, second);
    RunTwo(h, s, TakeCopy("/repo "), EvictCopy(second));
    SecondGoesAstray(Next(h, s, TakeCopy("/repo ")), first, second);
  }

  lemma SecondGoesAstray(s: System, first: Record, second: Record)
    requires first.path == "/repo" && second.path == "/repo "
    requires second in s.copies && second in s.ledger.trusted
    ensures var t := Next(PlainHost(), s, EvictCopy(second));
            second in t.copies && second in t.ledger.trusted && first !in t.ledger.trusted
  {
    TrimmedRepo();
    PlainEviction(s, second, second);
    if first in s.ledger.trusted {
      PlainEviction(s, second, first);
    }
  }

  lemma SecondIsCopied(first: Record, second: Record)
    requires first.path == "/repo" && second.path == "/repo "
    ensures EntryFor(PlainHost(), [first, second], "/repo ") == Some(second)
  {
    PlainForms("/repo");
    PlainForms("/repo ");
    assert [first, second][1..] == [second];
  }

  lemma RunTwo(h: Host, s: System, a: Action, b: Action)
    ensures Run(h, s, [a, b]) == Next(h, Next(h, s, a), b)
  {
    assert [a, b][..1] == [a];
    assert Run(h, s, [a]) == Next(h, Run(h, s, []), a);
  }

  lemma WorktreeHostCoherent()
    ensures CoherentPaths(WorktreeHost())
  {
  }
}
