/**
 * The pins of a project row: research briefs and papers as lists of paths, hypothesis cards as a list per id. The
 * edits the pin calls and the deletion of a research project make to them, and what the edits mean for a pin.
 */
module PinLists {
  import opened Wrappers
  import Text

  datatype Pins = Pins(research: seq<string>, hypotheses: map<string, seq<string>>, papers: seq<string>)

  /** The paths that `drop` does not select, in order. */
  function Without(list: seq<string>, drop: string -> bool): (kept: seq<string>) {
    if list == [] then []
    else
      var p := list[|list| - 1];
      Without(list[..|list| - 1], drop) + if drop(p) then [] else [p]
  }

  lemma {:induction false} WithoutInOrder(list: seq<string>, drop: string -> bool)
    ensures KeptInOrder(list, Without(list, drop), drop)
  {
    if list == [] {
      KeptNothing<string>(drop);
    } else {
      var n := |list| - 1;
      WithoutInOrder(list[..n], drop);
      KeptSnoc(list[..n], Without(list[..n], drop), list[n], drop);
      assert list == list[..n] + [list[n]];
      assert Without(list, drop) == if drop(list[n]) then Without(list[..n], drop) else Without(list[..n], drop) + [list[n]];
    }
  }

  lemma {:induction false} WithoutMembers(list: seq<string>, drop: string -> bool, p: string)
    ensures p in Without(list, drop) <==> p in list && !drop(p)
  {
    if list != [] {
      WithoutMembers(list[..|list| - 1], drop, p);
      assert list == list[..|list| - 1] + [list[|list| - 1]];
    }
  }

  lemma {:induction false} WithoutShrinks(list: seq<string>, drop: string -> bool)
    ensures |Without(list, drop)| <= |list|
    ensures Without(list, drop) == list <==> forall p | p in list :: !drop(p)
    ensures (exists p :: p in list && drop(p)) ==> |Without(list, drop)| < |list|
  {
    if list != [] {
      var front, last := list[..|list| - 1], list[|list| - 1];
      WithoutShrinks(front, drop);
      assert list == front + [last];
      if forall p | p in list :: !drop(p) {
        assert !drop(last);
      } else {
        var p :| p in list && drop(p);
        assert p != last ==> p in front;
        assert |Without(list, drop)| < |list|;
      }
    }
  }

  lemma WithoutTwice(list: seq<string>, drop: string -> bool)
    ensures Without(Without(list, drop), drop) == Without(list, drop)
  {
    WithoutShrinks(Without(list, drop), drop);
    forall p | p in Without(list, drop) ensures !drop(p) {
      WithoutMembers(list, drop, p);
    }
  }

  /** Pinning appends a path that is not there yet; unpinning drops every occurrence. */
  function Toggled(list: seq<string>, p: string, pinned: bool): seq<string> {
    if !pinned then Without(list, Is(p)) else if p in list then list else list + [p]
  }

  function Is(p: string): string -> bool {
    q => q == p
  }

  /** What a toggle leaves of a list: a path newly pinned comes last, an unpinned one is gone, and the rest stays in order. */
  ghost predicate ListToggled(list: seq<string>, next: seq<string>, p: string, pinned: bool) {
    if !pinned then KeptInOrder(list, next, Is(p)) else next == if p in list then list else list + [p]
  }

  /** After a toggle exactly the toggled path has the requested state; toggling again is a no-op. */
  lemma ToggledMeans(list: seq<string>, p: string, pinned: bool, q: string)
    ensures ListToggled(list, Toggled(list, p, pinned), p, pinned)
    ensures q in Toggled(list, p, pinned) <==> if q == p then pinned else q in list
    ensures Toggled(Toggled(list, p, pinned), p, pinned) == Toggled(list, p, pinned)
    ensures Toggled(list, p, pinned) == list <==> (p in list <==> pinned)
  {
    WithoutInOrder(list, Is(p));
    WithoutMembers(list, Is(p), q);
    WithoutMembers(list, Is(p), p);
    WithoutTwice(list, Is(p));
    WithoutShrinks(list, Is(p));
  }

  method TogglePinnedPath(list: seq<string>, p: string, pinned: bool) returns (next: seq<string>, changed: bool)
    ensures next == Toggled(list, p, pinned) && ListToggled(list, next, p, pinned)
    ensures changed <==> next != list
    ensures changed <==> (p in list <==> !pinned)
  {
    ToggledMeans(list, p, pinned, p);
    if pinned {
      for k := 0 to |list|
        invariant p !in list[..k]
      {
        if list[k] == p {
          return list, false;
        }
      }
      return list + [p], true;
    }
    var kept: seq<string> := [];
    var removed := false;
    for k := 0 to |list|
      invariant kept == Without(list[..k], Is(p))
      invariant removed <==> p in list[..k]
    {
      assert list[..k + 1][..k] == list[..k];
      if list[k] == p {
        removed := true;
      } else {
        kept := kept + [list[k]];
      }
    }
    assert list[..|list|] == list;
    WithoutShrinks(list, Is(p));
    if !removed {
      return list, false;
    }
    return kept, true;
  }

  // ------------------------------------------------------------------------------------------------
  // Dropping everything under a deleted research project
  // ------------------------------------------------------------------------------------------------

  predicate Under(p: string, dir: string) {
    Text.HasPrefix(p, dir + "/")
  }

  /** Below the directory itself, not below one whose name begins with its name. */
  lemma UnderMeans(p: string, dir: string)
    ensures Under(p, dir) <==> exists rest: string :: p == dir + "/" + rest
  {
    if Under(p, dir) {
      assert p == dir + "/" + p[|dir| + 1..];
    }
  }

  function LiesUnder(dir: string): string -> bool {
    p => Under(p, dir)
  }

  /** Some research or hypothesis pin lies under `dir`. */
  predicate PinsUnder(pins: Pins, dir: string) {
    || (exists p :: p in pins.research && Under(p, dir))
    || (exists h :: h in pins.hypotheses && CardsUnder(pins.hypotheses[h], dir))
  }

  predicate CardsUnder(cards: seq<string>, dir: string) {
    exists p :: p in cards && Under(p, dir)
  }

  function KeptPaths(list: seq<string>, dir: string): seq<string> {
    Without(list, LiesUnder(dir))
  }

  function KeptCards(hypotheses: map<string, seq<string>>, dir: string): map<string, seq<string>> {
    map h | h in hypotheses && KeptPaths(hypotheses[h], dir) != [] :: KeptPaths(hypotheses[h], dir)
  }

  /** A hypothesis whose list empties loses its key. */
  function RemovedUnder(pins: Pins, dir: string): Pins {
    Pins(KeptPaths(pins.research, dir), KeptCards(pins.hypotheses, dir), pins.papers)
  }

  /** No pin is left under the directory, every other pin is still there, and no key is left without a card. */
  lemma RemovedUnderMeans(pins: Pins, dir: string, h: string, p: string)
    ensures !PinsUnder(RemovedUnder(pins, dir), dir)
    ensures p in RemovedUnder(pins, dir).research <==> p in pins.research && !Under(p, dir)
    ensures HasCard(RemovedUnder(pins, dir), h, p) <==> HasCard(pins, h, p) && !Under(p, dir)
    ensures h in RemovedUnder(pins, dir).hypotheses ==> RemovedUnder(pins, dir).hypotheses[h] != []
    ensures RemovedUnder(pins, dir).papers == pins.papers
    ensures KeptInOrder(pins.research, RemovedUnder(pins, dir).research, LiesUnder(dir))
    ensures KeptInOrder(CardsOf(pins, h), CardsOf(RemovedUnder(pins, dir), h), LiesUnder(dir))
  {
    WithoutInOrder(pins.research, LiesUnder(dir));
    WithoutInOrder(CardsOf(pins, h), LiesUnder(dir));
    assert CardsOf(RemovedUnder(pins, dir), h) == Without(CardsOf(pins, h), LiesUnder(dir));
    WithoutMembers(pins.research, LiesUnder(dir), p);
    if h in pins.hypotheses {
      WithoutMembers(pins.hypotheses[h], LiesUnder(dir), p);
    }
    forall q | q in Without(pins.research, LiesUnder(dir)) ensures !Under(q, dir) {
      WithoutMembers(pins.research, LiesUnder(dir), q);
    }
    forall g, q | g in pins.hypotheses && q in Without(pins.hypotheses[g], LiesUnder(dir)) ensures !Under(q, dir) {
      WithoutMembers(pins.hypotheses[g], LiesUnder(dir), q);
    }
  }

  function CardsOf(pins: Pins, hid: string): seq<string> {
    if hid in pins.hypotheses then pins.hypotheses[hid] else []
  }

  predicate HasCard(pins: Pins, h: string, p: string) {
    h in pins.hypotheses && p in pins.hypotheses[h]
  }

  /** The inner loop, over one list. */
  method DropUnder(list: seq<string>, dir: string) returns (kept: seq<string>, changed: bool)
    ensures kept == KeptPaths(list, dir)
    ensures changed <==> CardsUnder(list, dir)
  {
    kept, changed := [], false;
    for k := 0 to |list|
      invariant kept == Without(list[..k], LiesUnder(dir))
      invariant changed <==> CardsUnder(list[..k], dir)
    {
      assert list[..k + 1][..k] == list[..k];
      assert list[..k + 1] == list[..k] + [list[k]];
      if Under(list[k], dir) {
        changed := true;
      } else {
        kept := kept + [list[k]];
      }
    }
    assert list[..|list|] == list;
  }

  /** The map while the keys in `todo` are still to be visited. */
  function Partly(hypotheses: map<string, seq<string>>, todo: set<string>, dir: string): map<string, seq<string>> {
    map h | h in hypotheses && (h in todo || KeptPaths(hypotheses[h], dir) != [])
      :: if h in todo then hypotheses[h] else KeptPaths(hypotheses[h], dir)
  }

  lemma PartlyVisit(hypotheses: map<string, seq<string>>, todo: set<string>, dir: string, h: string)
    requires h in todo && todo <= hypotheses.Keys
    ensures Partly(hypotheses, todo - {h}, dir) ==
            if KeptPaths(hypotheses[h], dir) == [] then Partly(hypotheses, todo, dir) - {h}
            else Partly(hypotheses, todo, dir)[h := KeptPaths(hypotheses[h], dir)]
  {
  }

  ghost predicate VisitedUnder(hypotheses: map<string, seq<string>>, todo: set<string>, dir: string) {
    exists h :: h in hypotheses && h !in todo && CardsUnder(hypotheses[h], dir)
  }

  method RemovePinnedUnderDir(pins: Pins, dir: string) returns (next: Pins, changed: bool)
    ensures next == RemovedUnder(pins, dir)
    ensures changed <==> PinsUnder(pins, dir)
  {
    var keptResearch;
    keptResearch, changed := DropUnder(pins.research, dir);
    var hypotheses := pins.hypotheses;
    var todo := pins.hypotheses.Keys;
    while todo != {}
      invariant todo <= pins.hypotheses.Keys
      invariant hypotheses == Partly(pins.hypotheses, todo, dir)
      invariant changed <==> CardsUnder(pins.research, dir) || VisitedUnder(pins.hypotheses, todo, dir)
      decreases |todo|
    {
      var h :| h in todo;
      PartlyVisit(pins.hypotheses, todo, dir, h);
      var keptCards, dropped := DropUnder(pins.hypotheses[h], dir);
      changed := changed || dropped;
      if |keptCards| == 0 {
        hypotheses := hypotheses - {h};
      } else {
        hypotheses := hypotheses[h := keptCards];
      }
      todo := todo - {h};
    }
    next := Pins(keptResearch, hypotheses, pins.papers);
  }

  // ------------------------------------------------------------------------------------------------
  // Unpinning a paper, which may be gone or renamed
  // ------------------------------------------------------------------------------------------------

  /** The names a resolved paper goes by: its directory on disk, its declared slug, and the slug it resolves to. */
  datatype Paper = Paper(dirBase: string, slug: string, resolvedSlug: string)

  /** path.Clean and papers.Slugify, whose bodies the model leaves open. */
  datatype Names = Names(clean: string -> string, slugify: string -> string)

  function PaperCardPath(slug: string): string {
    "papers/" + slug + "/paper.md"
  }

  function Candidate(rel: string, names: Names): set<string> {
    var cleaned := names.clean(Text.TrimSpace(rel));
    if cleaned != "" && cleaned != "." then {cleaned} else {}
  }

  /** Everything a pin of this paper may be stored as. path.Join cleans what it joins. */
  function Candidates(key: string, rec: Option<Paper>, names: Names): set<string> {
    var bySlug := if names.slugify(key) != "" then Candidate(names.clean(PaperCardPath(names.slugify(key))), names) else {};
    var byRecord :=
      if rec.None? then {}
      else Candidate(names.clean(PaperCardPath(rec.value.dirBase)), names)
           + Candidate(names.clean(PaperCardPath(rec.value.slug)), names)
           + Candidate(names.clean(PaperCardPath(rec.value.resolvedSlug)), names);
    Candidate(key, names) + bySlug + byRecord
  }

  /** The five names, each trimmed and cleaned; an empty one and "." name nothing. */
  lemma CandidatesMean(key: string, rec: Option<Paper>, names: Names, c: string)
    ensures c in Candidates(key, rec, names) <==>
      && c != "" && c != "."
      && (|| c == names.clean(Text.TrimSpace(key))
          || (names.slugify(key) != "" && NamesCard(names, names.slugify(key), c))
          || (rec.Some? && (NamesCard(names, rec.value.dirBase, c) || NamesCard(names, rec.value.slug, c)
                            || NamesCard(names, rec.value.resolvedSlug, c))))
  {
  }

  /** `c` is the pin of the paper card in this directory under papers/. */
  predicate NamesCard(names: Names, slug: string, c: string) {
    c == names.clean(Text.TrimSpace(names.clean("papers/" + slug + "/paper.md")))
  }

  method CandidatesOf(key: string, rec: Option<Paper>, names: Names) returns (candidates: set<string>)
    ensures candidates == Candidates(key, rec, names)
  {
    candidates := Candidate(key, names);
    var slug := names.slugify(key);
    if slug != "" {
      candidates := candidates + Candidate(names.clean(PaperCardPath(slug)), names);
    }
    if rec.Some? {
      candidates := candidates + Candidate(names.clean(PaperCardPath(rec.value.dirBase)), names);
      candidates := candidates + Candidate(names.clean(PaperCardPath(rec.value.slug)), names);
      candidates := candidates + Candidate(names.clean(PaperCardPath(rec.value.resolvedSlug)), names);
    }
  }

  function CleansInto(candidates: set<string>, names: Names): string -> bool {
    p => names.clean(p) in candidates
  }

  /** The pins that clean to none of the candidates. */
  function KeptPins(pins: seq<string>, candidates: set<string>, names: Names): seq<string> {
    Without(pins, CleansInto(candidates, names))
  }

  method DropCandidates(pins: seq<string>, candidates: set<string>, names: Names) returns (next: seq<string>, changed: bool)
    ensures next == KeptPins(pins, candidates, names)
    ensures changed <==> |next| < |pins|
  {
    next, changed := [], false;
    for k := 0 to |pins|
      invariant next == KeptPins(pins[..k], candidates, names)
      invariant |next| <= k && (changed <==> |next| < k)
    {
      assert pins[..k + 1][..k] == pins[..k];
      if names.clean(pins[k]) in candidates {
        changed := true;
      } else {
        next := next + [pins[k]];
      }
    }
    assert pins[..|pins|] == pins;
  }

  method RemovePaperPin(pins: seq<string>, key: string, rec: Option<Paper>, names: Names)
    returns (next: seq<string>, changed: bool)
    ensures next == KeptPins(pins, Candidates(key, rec, names), names)
    ensures KeptInOrder(pins, next, CleansInto(Candidates(key, rec, names), names))
    ensures changed <==> next != pins
  {
    WithoutInOrder(pins, CleansInto(Candidates(key, rec, names), names));
    var candidates := CandidatesOf(key, rec, names);
    next, changed := DropCandidates(pins, candidates, names);
    WithoutShrinks(pins, CleansInto(candidates, names));
    if !changed {
      SameLengthKeepsAll(pins, CleansInto(candidates, names));
    }
  }

  lemma {:induction false} SameLengthKeepsAll(list: seq<string>, drop: string -> bool)
    requires |Without(list, drop)| == |list|
    ensures Without(list, drop) == list
  {
    WithoutShrinks(list, drop);
  }

  /**
   * Unpinning reaches the pin that pinning stored: under the paper's directory while it still resolves, and under
   * any slug that is the key's own once it no longer does. Only a path that cleans to such a name is dropped.
   */
  lemma UnpinReachesThePin(pins: seq<string>, key: string, rec: Option<Paper>, names: Names,
                           stored: string, other: string)
    requires names.clean(stored) == stored && Text.TrimSpace(stored) == stored && stored != "" && stored != "."
    requires
      || (rec.Some? && exists slug | slug in {rec.value.dirBase, rec.value.slug, rec.value.resolvedSlug} ::
            stored == names.clean("papers/" + slug + "/paper.md"))
      || (names.slugify(key) != "" && stored == names.clean("papers/" + names.slugify(key) + "/paper.md"))
    ensures var next := KeptPins(pins, Candidates(key, rec, names), names);
            && stored !in next
            && (other in next <==> other in pins && names.clean(other) !in Candidates(key, rec, names))
  {
    WithoutMembers(pins, CleansInto(Candidates(key, rec, names), names), stored);
    WithoutMembers(pins, CleansInto(Candidates(key, rec, names), names), other);
    assert stored in Candidates(key, rec, names);
  }
}
