/**
 * Where the promises about a project's row stop. Renames take no root mutex, and two calls hold different mutexes
 * when the session moves the effective root between their checks; a save then writes back a row loaded too early.
 * The results say exactly when that costs a name or a pin, over any run.
 */
module PinRaces {
  import opened Wrappers
  import opened PinLists
  import opened ResearchPins

  /** The state after the first `n` actions. */
  function At(s: State, actions: seq<Action>, n: nat): (t: State)
    requires n <= |actions|
    ensures |t.threads| == |s.threads|
  {
    Run(s, actions[..n])
  }

  lemma AtNext(s: State, actions: seq<Action>, n: nat)
    requires n < |actions|
    ensures At(s, actions, n + 1) == Next(At(s, actions, n), actions[n])
  {
    assert actions[..n + 1][..n] == actions[..n];
  }

  // ------------------------------------------------------------------------------------------------
  // A call between its load and its save
  // ------------------------------------------------------------------------------------------------

  lemma OthersStay(s: State, a: Action, i: nat)
    requires i < |s.threads| && !(a.Move? && a.i == i)
    ensures Next(s, a).threads[i] == s.threads[i]
  {
  }

  lemma OwnStep(s: State, i: nat, c: Choice)
    requires i < |s.threads|
    ensures var t, u := s.threads[i].stage, Step(s, i, c).threads[i].stage;
            match t
            case Start => u.Rooted?
            case Rooted(_) => u.Rooted? || u.Locked?
            case Locked(root) => u == Loaded(root, s.row)
            case Loaded(root, row) => if s.root == root then u == Checked(root, row) else u.Done?
            case Checked(root, row) => u.Done? || (u.Decided? && u.root == root && u.row == row)
            case Decided(_, _, _) => u.Done?
            case Done(_) => u == t
  {
  }

  lemma StepMovesRoot(s: State, a: Action)
    ensures !a.FollowSession? ==> Next(s, a).root == s.root
  {
  }

  /** Out of its window a call is done; in it the loaded row stays as it was. */
  predicate Beyond(t: Thread, u: Thread) {
    u.stage.Done? || (InWindow(t) && InWindow(u) && u.stage.root == t.stage.root && u.stage.row == t.stage.row)
  }

  lemma StepStaysBeyond(s: State, a: Action, i: nat)
    requires i < |s.threads| && (InWindow(s.threads[i]) || s.threads[i].stage.Done?)
    ensures Beyond(s.threads[i], Next(s, a).threads[i])
  {
    if a.Move? && a.i == i {
      OwnStep(s, i, a.choice);
    } else {
      OthersStay(s, a, i);
    }
  }

  lemma {:induction false} WindowLasts(s: State, actions: seq<Action>, i: nat, k: nat, n: nat)
    requires k <= n <= |actions| && i < |s.threads|
    requires InWindow(At(s, actions, k).threads[i]) || At(s, actions, k).threads[i].stage.Done?
    ensures Beyond(At(s, actions, k).threads[i], At(s, actions, n).threads[i])
    decreases n
  {
    if k < n {
      WindowLasts(s, actions, i, k, n - 1);
      AtNext(s, actions, n - 1);
      StepStaysBeyond(At(s, actions, n - 1), actions[n - 1], i);
    }
  }

  /** A call in its window was there before this step, or has loaded the row in it. */
  lemma StepInWindow(s: State, a: Action, i: nat)
    requires i < |s.threads| && InWindow(Next(s, a).threads[i])
    ensures var t, u := s.threads[i], Next(s, a).threads[i];
            if t.stage.Locked? then a.Move? && a.i == i && u.stage == Loaded(t.stage.root, s.row)
            else InWindow(t) && u.stage.root == t.stage.root && u.stage.row == t.stage.row
                 && (t.stage.Loaded? && !u.stage.Loaded? ==> s.root == t.stage.root)
  {
    if a.Move? && a.i == i {
      OwnStep(s, i, a.choice);
    } else {
      OthersStay(s, a, i);
    }
  }

  /** The moment at which call `i` last loaded the row. */
  function LoadedAt(s: State, actions: seq<Action>, i: nat, n: nat): (k: nat)
    requires n <= |actions| && i < |s.threads|
    ensures k <= n
  {
    if n == 0 then 0
    else if actions[n - 1].Move? && actions[n - 1].i == i && At(s, actions, n - 1).threads[i].stage.Locked? then n - 1
    else LoadedAt(s, actions, i, n - 1)
  }

  lemma {:induction false} WindowHoldsTheLoadedRow(s: State, actions: seq<Action>, i: nat, n: nat)
    requires Init(s) && n <= |actions| && i < |s.threads| && InWindow(At(s, actions, n).threads[i])
    ensures At(s, actions, n).threads[i].stage.row == At(s, actions, LoadedAt(s, actions, i, n)).row
    ensures LoadedAt(s, actions, i, n) < n
    decreases n
  {
    if n > 0 {
      AtNext(s, actions, n - 1);
      StepInWindow(At(s, actions, n - 1), actions[n - 1], i);
      if InWindow(At(s, actions, n - 1).threads[i]) {
        WindowHoldsTheLoadedRow(s, actions, i, n - 1);
      }
    }
  }

  // ------------------------------------------------------------------------------------------------
  // Renames
  // ------------------------------------------------------------------------------------------------

  /** The moment the row's name goes back to: a save carries on the name its call loaded. */
  function NamedAt(s: State, actions: seq<Action>, n: nat): (k: nat)
    requires n <= |actions|
    ensures k <= n
    decreases n
  {
    if n == 0 || actions[n - 1].Rename? then n
    else if Saves(At(s, actions, n - 1), actions[n - 1]) then
      NamedAt(s, actions, LoadedAt(s, actions, actions[n - 1].i, n - 1))
    else NamedAt(s, actions, n - 1)
  }

  /** A step leaves the name alone unless it renames, or saves a row loaded under another one. */
  lemma StepNames(s: State, a: Action)
    ensures var t := Next(s, a);
            && t.renamed == (if a.Rename? then a.name else s.renamed)
            && t.row.name == (if a.Rename? then a.name else if Saves(s, a) then s.threads[a.i].stage.row.name else s.row.name)
  {
  }

  /** So after any run the last name given stands if and only if the name the row goes back to is the same. */
  lemma {:induction false} NameGoesBack(s: State, actions: seq<Action>, n: nat)
    requires Init(s) && n <= |actions|
    ensures At(s, actions, n).row.name == At(s, actions, NamedAt(s, actions, n)).renamed
    decreases n
  {
    if n > 0 {
      AtNext(s, actions, n - 1);
      var t, a := At(s, actions, n - 1), actions[n - 1];
      StepNames(t, a);
      if Saves(t, a) {
        WindowHoldsTheLoadedRow(s, actions, a.i, n - 1);
        NameGoesBack(s, actions, LoadedAt(s, actions, a.i, n - 1));
      } else if !a.Rename? {
        NameGoesBack(s, actions, n - 1);
      }
    }
  }

  /** At every moment of the run the row has the last name given. */
  ghost predicate NameStands(s: State, actions: seq<Action>) {
    forall n | 0 <= n <= |actions| :: At(s, actions, n).row.name == At(s, actions, n).renamed
  }

  /** No save comes from a call that loaded when another name was the last one given. */
  ghost predicate SavesAreCurrent(s: State, actions: seq<Action>) {
    forall k | 0 <= k < |actions| && Saves(At(s, actions, k), actions[k]) ::
      At(s, actions, LoadedAt(s, actions, actions[k].i, k)).renamed == At(s, actions, k).renamed
  }

  lemma SaveGivesTheLoadedName(s: State, actions: seq<Action>, k: nat)
    requires Init(s) && k < |actions| && Saves(At(s, actions, k), actions[k])
    ensures At(s, actions, k + 1).row.name == At(s, actions, LoadedAt(s, actions, actions[k].i, k)).row.name
    ensures At(s, actions, k + 1).renamed == At(s, actions, k).renamed
  {
    AtNext(s, actions, k);
    StepNames(At(s, actions, k), actions[k]);
    WindowHoldsTheLoadedRow(s, actions, actions[k].i, k);
  }

  lemma {:induction false} NameStandsUpTo(s: State, actions: seq<Action>, n: nat)
    requires Init(s) && SavesAreCurrent(s, actions) && n <= |actions|
    ensures At(s, actions, n).row.name == At(s, actions, n).renamed
    decreases n
  {
    if n > 0 {
      AtNext(s, actions, n - 1);
      StepNames(At(s, actions, n - 1), actions[n - 1]);
      NameStandsUpTo(s, actions, n - 1);
      if Saves(At(s, actions, n - 1), actions[n - 1]) {
        SaveGivesTheLoadedName(s, actions, n - 1);
        NameStandsUpTo(s, actions, LoadedAt(s, actions, actions[n - 1].i, n - 1));
      }
    }
  }

  /**
   * Exactly when no rename is lost, over any run: the row has the last name given at every moment if and only if
   * every save comes from a call that loaded under the name that is still the last one given.
   */
  lemma NameStandsExactlyWhenSavesAreCurrent(s: State, actions: seq<Action>)
    requires Init(s)
    ensures NameStands(s, actions) <==> SavesAreCurrent(s, actions)
  {
    if NameStands(s, actions) {
      forall k | 0 <= k < |actions| && Saves(At(s, actions, k), actions[k])
        ensures At(s, actions, LoadedAt(s, actions, actions[k].i, k)).renamed == At(s, actions, k).renamed
      {
        SaveGivesTheLoadedName(s, actions, k);
      }
    }
    if SavesAreCurrent(s, actions) {
      forall n | 0 <= n <= |actions| ensures At(s, actions, n).row.name == At(s, actions, n).renamed {
        NameStandsUpTo(s, actions, n);
      }
    }
  }

  /** Every rename happens while no call is between its load and its save. */
  ghost predicate RenamesApart(s: State, actions: seq<Action>) {
    forall k, i | 0 <= k < |actions| && actions[k].Rename? && 0 <= i < |s.threads| ::
      !InWindow(At(s, actions, k).threads[i])
  }

  lemma {:induction false} ApartLoadsAreCurrent(s: State, actions: seq<Action>, i: nat, n: nat)
    requires Init(s) && RenamesApart(s, actions) && n <= |actions| && i < |s.threads|
    requires InWindow(At(s, actions, n).threads[i])
    ensures At(s, actions, LoadedAt(s, actions, i, n)).renamed == At(s, actions, n).renamed
    decreases n
  {
    if n > 0 {
      AtNext(s, actions, n - 1);
      StepInWindow(At(s, actions, n - 1), actions[n - 1], i);
      StepNames(At(s, actions, n - 1), actions[n - 1]);
      if InWindow(At(s, actions, n - 1).threads[i]) {
        ApartLoadsAreCurrent(s, actions, i, n - 1);
      }
    }
  }

  /** Renames apart from those windows are safe, under any session changes. */
  lemma RenamesOutsideWindowsStay(s: State, actions: seq<Action>)
    requires Init(s) && RenamesApart(s, actions)
    ensures NameStands(s, actions)
  {
    forall k | 0 <= k < |actions| && Saves(At(s, actions, k), actions[k])
      ensures At(s, actions, LoadedAt(s, actions, actions[k].i, k)).renamed == At(s, actions, k).renamed
    {
      ApartLoadsAreCurrent(s, actions, actions[k].i, k);
    }
    NameStandsExactlyWhenSavesAreCurrent(s, actions);
  }

  // ------------------------------------------------------------------------------------------------
  // Lost updates
  // ------------------------------------------------------------------------------------------------

  /** Pins that changed under a call in its window were saved by another call. */
  lemma {:induction false} SaveSinceTheLoad(s: State, actions: seq<Action>, i: nat, n: nat) returns (k: nat)
    requires Init(s) && n <= |actions| && i < |s.threads| && InWindow(At(s, actions, n).threads[i])
    requires At(s, actions, n).threads[i].stage.row.pins != At(s, actions, n).row.pins
    ensures k < n && InWindow(At(s, actions, k).threads[i])
    ensures Saves(At(s, actions, k), actions[k]) && actions[k].i != i
    decreases n
  {
    AtNext(s, actions, n - 1);
    var t := At(s, actions, n - 1);
    StepInWindow(t, actions[n - 1], i);
    StepLogs(t, actions[n - 1]);
    if t.threads[i].stage.row.pins != t.row.pins {
      k := SaveSinceTheLoad(s, actions, i, n - 1);
    } else {
      k := n - 1;
    }
  }

  /** A call past its check found its root effective at some moment of its window. */
  lemma {:induction false} CheckedInItsWindow(s: State, actions: seq<Action>, i: nat, n: nat) returns (k: nat)
    requires Init(s) && n <= |actions| && i < |s.threads|
    requires At(s, actions, n).threads[i].stage.Checked? || At(s, actions, n).threads[i].stage.Decided?
    ensures k <= n && InWindow(At(s, actions, k).threads[i])
    ensures At(s, actions, k).root == At(s, actions, n).threads[i].stage.root
    decreases n
  {
    AtNext(s, actions, n - 1);
    StepInWindow(At(s, actions, n - 1), actions[n - 1], i);
    if At(s, actions, n - 1).threads[i].stage.Loaded? {
      k := n - 1;
    } else {
      k := CheckedInItsWindow(s, actions, i, n - 1);
    }
  }

  lemma {:induction false} SessionMovedBetween(s: State, actions: seq<Action>, k: nat, n: nat) returns (m: nat)
    requires k <= n <= |actions| && At(s, actions, k).root != At(s, actions, n).root
    ensures k <= m < n && actions[m].FollowSession?
    decreases n
  {
    AtNext(s, actions, n - 1);
    StepMovesRoot(At(s, actions, n - 1), actions[n - 1]);
    if actions[n - 1].FollowSession? {
      m := n - 1;
    } else {
      m := SessionMovedBetween(s, actions, k, n - 1);
    }
  }

  lemma HoldersDiffer(s: State, i: nat, j: nat)
    requires Locks(s) && i < |s.threads| && j < |s.threads| && i != j && InWindow(s.threads[i]) && InWindow(s.threads[j])
    ensures s.threads[i].stage.root != s.threads[j].stage.root
  {
    var own, other := s.threads[i].stage.root, s.threads[j].stage.root;
    assert Holds(s.threads[i], own) && s.mutexes[own] == i;
    assert Holds(s.threads[j], other) && s.mutexes[other] == j;
  }

  /** At step `k`, in call `i`'s window, a call under another root saves. */
  ghost predicate ForeignSave(s: State, actions: seq<Action>, i: nat, k: nat)
    requires k < |actions| && i < |s.threads|
  {
    var t := At(s, actions, k);
    && InWindow(t.threads[i]) && Saves(t, actions[k])
    && t.threads[actions[k].i].stage.root != t.threads[i].stage.root
  }

  /** At step `m`, in call `i`'s window, the session moves the effective root. */
  ghost predicate SessionMoves(s: State, actions: seq<Action>, i: nat, m: nat)
    requires m < |actions| && i < |s.threads|
  {
    actions[m].FollowSession? && InWindow(At(s, actions, m).threads[i])
  }

  /** Two calls in their windows together under different roots: the session moved in one of the windows. */
  lemma RootsDifferBySession(s: State, actions: seq<Action>, i: nat, j: nat, k: nat) returns (m: nat)
    requires Init(s) && k <= |actions| && i < |s.threads| && j < |s.threads|
    requires InWindow(At(s, actions, k).threads[i]) && At(s, actions, k).threads[j].stage.Decided?
    requires At(s, actions, k).threads[i].stage.root != At(s, actions, k).threads[j].stage.root
    requires At(s, actions, |actions|).threads[i].stage.Decided?
    ensures m < |actions| && (SessionMoves(s, actions, i, m) || SessionMoves(s, actions, j, m))
  {
    var n := |actions|;
    var ci := CheckedInItsWindow(s, actions, i, n);
    var cj := CheckedInItsWindow(s, actions, j, k);
    WindowLasts(s, actions, i, k, n);
    if ci < cj {
      m := SessionMovedBetween(s, actions, ci, cj);
      WindowLasts(s, actions, i, ci, m);
      WindowLasts(s, actions, i, m, n);
    } else {
      m := SessionMovedBetween(s, actions, cj, ci);
      if m < k {
        WindowLasts(s, actions, j, cj, m);
        WindowLasts(s, actions, j, m, k);
      } else {
        WindowLasts(s, actions, i, k, m);
        WindowLasts(s, actions, i, m, n);
      }
    }
  }

  lemma MisfitMeansMoved(s: State, a: Action)
    requires !CommitFits(s, a)
    ensures Commits(s, a) && s.threads[a.i].stage.row.pins != s.row.pins
  {
  }

  /**
   * Where a lost update comes from: a commit that does not fit the row had a call under another root save in its
   * window, and the session moved the root in the window of one of the two.
   */
  lemma LostUpdateNeedsASessionMove(s: State, actions: seq<Action>, a: Action)
    requires Init(s) && !CommitFits(Run(s, actions), a)
    ensures exists k :: 0 <= k < |actions| && ForeignSave(s, actions, a.i, k)
                        && exists m :: 0 <= m < |actions| &&
                             (SessionMoves(s, actions, a.i, m) || SessionMoves(s, actions, actions[k].i, m))
  {
    var n := |actions|;
    assert actions[..n] == actions;
    MisfitMeansMoved(At(s, actions, n), a);
    var k := SaveSinceTheLoad(s, actions, a.i, n);
    RunKeepsLocks(s, actions[..k]);
    HoldersDiffer(At(s, actions, k), a.i, actions[k].i);
    assert ForeignSave(s, actions, a.i, k);
    var m := RootsDifferBySession(s, actions, a.i, actions[k].i, k);
    assert SessionMoves(s, actions, a.i, m) || SessionMoves(s, actions, actions[k].i, m);
  }

  // ------------------------------------------------------------------------------------------------
  // Both happen
  // ------------------------------------------------------------------------------------------------

  lemma RunAppend(s: State, before: seq<Action>, a: Action)
    ensures Run(s, before + [a]) == Next(Run(s, before), a)
  {
    assert (before + [a])[..|before + [a]| - 1] == before;
  }

  function Five(i: nat, c: Choice): seq<Action> {
    [] + [Move(i, c)] + [Move(i, c)] + [Move(i, c)] + [Move(i, c)] + [Move(i, c)]
  }

  lemma RunFive(s: State, before: seq<Action>, i: nat, c: Choice)
    ensures Run(s, before + Five(i, c)) == FiveMoves(Run(s, before), i, c)
  {
    var m := [Move(i, c)];
    assert before + Five(i, c) == before + m + m + m + m + m;
    RunAppend(s, before, m[0]);
    RunAppend(s, before + m, m[0]);
    RunAppend(s, before + m + m, m[0]);
    RunAppend(s, before + m + m + m, m[0]);
    RunAppend(s, before + m + m + m + m, m[0]);
  }

  /** A pin call that meets no obstacle reaches its decision, holding its root's mutex and the row it loaded. */
  lemma PinCallDecides(s: State, i: nat, c: Choice)
    requires i < |s.threads| && s.threads[i].stage.Start? && s.threads[i].op == SetResearch(true)
    requires s.root !in s.mutexes && c.dir in DirsOf(s, s.root)
    ensures FiveMoves(s, i, c) ==
            Goto(s.(mutexes := s.mutexes[s.root := i]), i, Decided(s.root, s.row, Brief(c.dir, true)))
  {
    CallChecks(s, i, c);
  }

  function Pinning(dir: string): Choice {
    Choice(true, dir, "", {})
  }

  function TwoPins(): State {
    State(Row("old", 0, Pins([], map[], [])), "a", map["a" := {"R"}, "b" := {"Q"}], map[],
          [Thread(SetResearch(true), Start), Thread(SetResearch(true), Start)], [], {}, "old")
  }

  /** A rename that lands between a pin call's load and its save is undone by that save. */
  lemma RenameInWindowIsReverted()
    ensures Init(TwoPins())
    ensures var t := Run(TwoPins(), Five(0, Pinning("R")) + [Rename("new")] + [Move(0, Pinning("R"))]);
            t.threads[0].stage == Done(Committed) && t.renamed == "new" && t.row.name == "old"
  {
    var s := TwoPins();
    var c := Pinning("R");
    assert [] + Five(0, c) == Five(0, c);
    RunFive(s, [], 0, c);
    PinCallDecides(s, 0, c);
    RunAppend(s, Five(0, c), Rename("new"));
    RunAppend(s, Five(0, c) + [Rename("new")], Move(0, c));
    ToggledMeans([], BriefPath("R"), true, BriefPath("R"));
  }

  /** The first call has decided and the session has changed. */
  function Overtaken(): State {
    var s := TwoPins();
    Goto(s.(mutexes := map["a" := 0]), 0, Decided("a", s.row, Brief("R", true))).(root := "b")
  }

  lemma FirstCallIsOvertaken()
    ensures Run(TwoPins(), Five(0, Pinning("R")) + [FollowSession("b")]) == Overtaken()
  {
    var s, c := TwoPins(), Pinning("R");
    assert [] + Five(0, c) == Five(0, c);
    RunFive(s, [], 0, c);
    PinCallDecides(s, 0, c);
    RunAppend(s, Five(0, c), FollowSession("b"));
  }

  function PinnedRow(dir: string): Row {
    TwoPins().row.(pins := Pins([BriefPath(dir)], map[], []))
  }

  /** A decided pin call on the row without pins saves exactly its own pin. */
  lemma DecidedPinSaves(s: State, i: nat, root: string, dir: string)
    requires i < |s.threads| && s.threads[i].stage == Decided(root, TwoPins().row, Brief(dir, true))
    ensures Next(s, Move(i, Pinning(dir))) ==
            Leave(s.(row := PinnedRow(dir), log := s.log + [(i, Brief(dir, true))]), i, root, Committed)
  {
    assert Applied(TwoPins().row.pins, Brief(dir, true)) == Pins([BriefPath(dir)], map[], []);
    assert PinnedRow(dir).pins.research[0] == BriefPath(dir);
  }

  /** The session changes after the first call decided, the second commits under the new root's mutex, the first saves. */
  function RootChangeRun(): seq<Action> {
    Five(0, Pinning("R")) + [FollowSession("b")] + Five(1, Pinning("Q")) + [Move(1, Pinning("Q"))] + [Move(0, Pinning("R"))]
  }

  /** The second call has committed its pin under its own mutex. */
  function SecondDone(): State {
    var s := Overtaken();
    Goto(s.(row := PinnedRow("Q"), log := [(1, Brief("Q", true))]), 1, Done(Committed))
  }

  lemma SecondCallCommits()
    ensures Next(FiveMoves(Overtaken(), 1, Pinning("Q")), Move(1, Pinning("Q"))) == SecondDone()
  {
    PinCallDecides(Overtaken(), 1, Pinning("Q"));
    var t := FiveMoves(Overtaken(), 1, Pinning("Q"));
    DecidedPinSaves(t, 1, "b", "Q");
    assert t.mutexes - {"b"} == map["a" := 0];
  }

  lemma RootChangeRunUnfolds()
    ensures Run(TwoPins(), RootChangeRun()) ==
            Next(Next(FiveMoves(Overtaken(), 1, Pinning("Q")), Move(1, Pinning("Q"))), Move(0, Pinning("R")))
  {
    var s, c := TwoPins(), Pinning("Q");
    FirstCallIsOvertaken();
    var p := Five(0, Pinning("R")) + [FollowSession("b")];
    RunFive(s, p, 1, c);
    RunAppend(s, p + Five(1, c), Move(1, c));
    RunAppend(s, p + Five(1, c) + [Move(1, c)], Move(0, Pinning("R")));
  }

  lemma FirstCallSavesLast()
    ensures var t := Next(SecondDone(), Move(0, Pinning("R")));
            && t.threads[0].stage == Done(Committed) && t.threads[1].stage == Done(Committed)
            && t.log == [(1, Brief("Q", true)), (0, Brief("R", true))]
            && t.row.pins.research == [BriefPath("R")]
  {
    DecidedPinSaves(SecondDone(), 0, "a", "R");
  }

  lemma BothPinsAreDue()
    ensures Replay(Pins([], map[], []), [(1, Brief("Q", true)), (0, Brief("R", true))]).research ==
            [BriefPath("Q"), BriefPath("R")]
  {
    var log: seq<(nat, Delta)> := [(1, Brief("Q", true)), (0, Brief("R", true))];
    assert BriefPath("Q")[0] != BriefPath("R")[0];
    assert log[..1] == [(1, Brief("Q", true))] && log[..1][..0] == [];
    assert Replay(Pins([], map[], []), log[..1]).research == [BriefPath("Q")];
  }

  lemma TwoPinsStart()
    ensures Init(TwoPins())
  {
  }

  /** Both calls report success and both pins are due, and the one saved first is gone. */
  lemma RootChangeInWindowLosesAnUpdate()
    ensures Init(TwoPins())
    ensures var t := Run(TwoPins(), RootChangeRun());
            && t.threads[0].stage == Done(Committed) && t.threads[1].stage == Done(Committed)
            && Replay(TwoPins().row.pins, t.log).research == [BriefPath("Q"), BriefPath("R")]
            && t.row.pins.research == [BriefPath("R")]
  {
    TwoPinsStart();
    RootChangeRunUnfolds();
    SecondCallCommits();
    BothPinsAreDue();
    FirstCallSavesLast();
  }
}
