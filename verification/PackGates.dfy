/**
 * The sidebar surface gates: toggling a surface persists its gate and seeds or unseeds its packs, while the
 * launch seed reconciles both surfaces on its own goroutine. Toggles hold configMu throughout and take
 * researchSeedMu inside it; the seed reads the gates under configMu, lets go, and then takes researchSeedMu.
 */
module PackGates {
  import opened Wrappers

  datatype Surface = Research | Specs

  datatype Pair<T> = Pair(research: T, specs: T) {
    function Get(x: Surface): T {
      if x.Research? then research else specs
    }

    function Set(x: Surface, value: T): Pair<T> {
      if x.Research? then Pair(value, specs) else Pair(research, value)
    }
  }

  /** What is on disk of a surface's packs. */
  datatype Disk = Installed | Removed | Mixed

  function Asked(want: bool): Disk {
    if want then Installed else Removed
  }

  /** One disk pass: what it was asked for, and what it left behind if some pack failed. */
  datatype Pass = Pass(want: bool, failure: Option<Disk>)

  function DiskAfter(p: Pass): Disk {
    if p.failure.None? then Asked(p.want) else p.failure.value
  }

  /** An unset gate means on. */
  function PackEnabled(gate: Option<bool>): bool {
    gate.None? || gate.value
  }

  datatype SeedStage = SeedStart | GatesRead | SeedLocked | ResearchPassed | SeedDone

  datatype ToggleStage = ToggleStart | ConfigLocked | Saved | Applying | Applied | ToggleDone

  datatype Thread =
    | Seed(stage: SeedStage, gates: Pair<bool>)
    | Toggle(surface: Surface, want: bool, step: ToggleStage)

  /**
   * `config` is the gates in memory and `file` those on disk; `mirror` is the gate the last toggle of this
   * session applied; `packs` is what the disk holds. The mutexes name the thread holding them. `passes` is the last
   * disk pass of this run on each surface, for history.
   */
  datatype State = State(
    config: Pair<Option<bool>>,
    file: Pair<Option<bool>>,
    mirror: Pair<Option<bool>>,
    packs: Pair<Disk>,
    configMu: Option<nat>,
    seedMu: Option<nat>,
    threads: seq<Thread>,
    passes: Pair<Option<Pass>>)

  predicate AtStart(t: Thread) {
    match t case Seed(stage, _) => stage.SeedStart? case Toggle(_, _, step) => step.ToggleStart?
  }

  predicate Done(t: Thread) {
    match t case Seed(stage, _) => stage.SeedDone? case Toggle(_, _, step) => step.ToggleDone?
  }

  /** Any threads, any persisted gates, and whatever an earlier run left on disk. */
  predicate Init(s: State) {
    && s.config == s.file && s.mirror == Pair(None, None) && s.configMu.None? && s.seedMu.None?
    && s.passes == Pair(None, None)
    && forall i | 0 <= i < |s.threads| :: AtStart(s.threads[i])
  }

  function Effective(s: State): Pair<bool> {
    Pair(PackEnabled(s.config.research), PackEnabled(s.config.specs))
  }

  /** The gates the seed goes by once it holds researchSeedMu: the mirror where there is one. */
  function Honoured(mirror: Pair<Option<bool>>, read: Pair<bool>): Pair<bool> {
    Pair(if mirror.research.Some? then mirror.research.value else read.research,
         if mirror.specs.Some? then mirror.specs.value else read.specs)
  }

  /** A pass over one surface's packs; per-pack failures are logged, never fatal. */
  function RunPacks(s: State, x: Surface, p: Pass): State {
    s.(packs := s.packs.Set(x, DiskAfter(p)), passes := s.passes.Set(x, Some(p)))
  }

  function SeedStep(s: State, i: nat, failure: Option<Disk>): State
    requires i < |s.threads| && s.threads[i].Seed?
  {
    var Seed(stage, gates) := s.threads[i];
    match stage
    case SeedStart =>
      if s.configMu.Some? then s else s.(threads := s.threads[i := Seed(GatesRead, Effective(s))])
    case GatesRead =>
      if s.seedMu.Some? then s
      else s.(seedMu := Some(i), threads := s.threads[i := Seed(SeedLocked, Honoured(s.mirror, gates))])
    case SeedLocked =>
      RunPacks(s, Research, Pass(gates.research, failure)).(threads := s.threads[i := Seed(ResearchPassed, gates)])
    case ResearchPassed =>
      RunPacks(s, Specs, Pass(gates.specs, failure)).(seedMu := None, threads := s.threads[i := Seed(SeedDone, gates)])
    case SeedDone => s
  }

  function ToggleStep(s: State, i: nat, saveOk: bool, failure: Option<Disk>): State
    requires i < |s.threads| && s.threads[i].Toggle?
  {
    var Toggle(x, want, step) := s.threads[i];
    match step
    case ToggleStart =>
      if s.configMu.Some? then s else s.(configMu := Some(i), threads := s.threads[i := Toggle(x, want, ConfigLocked)])
    case ConfigLocked =>
      // Already in the requested state, or the write failed and the gate was rolled back: nothing else happens.
      if PackEnabled(s.config.Get(x)) == want || !saveOk
      then s.(configMu := None, threads := s.threads[i := Toggle(x, want, ToggleDone)])
      else
        var config := s.config.Set(x, Some(want));
        s.(config := config, file := config, threads := s.threads[i := Toggle(x, want, Saved)])
    case Saved =>
      if s.seedMu.Some? then s
      else s.(seedMu := Some(i), mirror := s.mirror.Set(x, Some(want)), threads := s.threads[i := Toggle(x, want, Applying)])
    case Applying =>
      RunPacks(s, x, Pass(want, failure)).(seedMu := None, threads := s.threads[i := Toggle(x, want, Applied)])
    case Applied => s.(configMu := None, threads := s.threads[i := Toggle(x, want, ToggleDone)])
    case ToggleDone => s
  }

  /** Which thread moves, whether a config write it makes succeeds, and what a pass it makes fails to do. */
  datatype Action = Action(i: nat, saveOk: bool, failure: Option<Disk>)

  function Next(s: State, a: Action): State {
    if a.i >= |s.threads| then s
    else if s.threads[a.i].Seed? then SeedStep(s, a.i, a.failure)
    else ToggleStep(s, a.i, a.saveOk, a.failure)
  }

  function Run(s: State, actions: seq<Action>): State
    decreases |actions|
  {
    if actions == [] then s else Next(Run(s, actions[..|actions| - 1]), actions[|actions| - 1])
  }

  // ------------------------------------------------------------------------------------------------
  // The invariant
  // ------------------------------------------------------------------------------------------------

  predicate HoldsConfigMu(t: Thread) {
    t.Toggle? && (t.step.ConfigLocked? || t.step.Saved? || t.step.Applying? || t.step.Applied?)
  }

  predicate HoldsSeedMu(t: Thread) {
    match t case Seed(stage, _) => stage.SeedLocked? || stage.ResearchPassed? case Toggle(_, _, step) => step.Applying?
  }

  ghost predicate Locks(s: State) {
    && (forall i | 0 <= i < |s.threads| :: HoldsConfigMu(s.threads[i]) <==> s.configMu == Some(i))
    && (forall i | 0 <= i < |s.threads| :: HoldsSeedMu(s.threads[i]) <==> s.seedMu == Some(i))
    && (s.configMu.Some? ==> s.configMu.value < |s.threads|)
    && (s.seedMu.Some? ==> s.seedMu.value < |s.threads|)
  }

  /** A toggle of `x` has persisted its gate and has yet to take researchSeedMu. */
  predicate ApplyPending(s: State, x: Surface) {
    s.configMu.Some? && s.configMu.value < |s.threads| &&
    var t := s.threads[s.configMu.value]; t.Toggle? && t.surface == x && t.step.Saved?
  }

  /** The same, or it holds researchSeedMu but has yet to touch the packs. */
  predicate PassPending(s: State, x: Surface) {
    s.configMu.Some? && s.configMu.value < |s.threads| &&
    var t := s.threads[s.configMu.value]; t.Toggle? && t.surface == x && (t.step.Saved? || t.step.Applying?)
  }

  ghost predicate SurfaceInv(s: State, x: Surface) {
    && (s.mirror.Get(x).Some? && !ApplyPending(s, x) ==> s.mirror.Get(x).value == Effective(s).Get(x))
    && (s.passes.Get(x).Some? ==> s.packs.Get(x) == DiskAfter(s.passes.Get(x).value))
    && (s.passes.Get(x).Some? && !PassPending(s, x) ==> s.passes.Get(x).value.want == Effective(s).Get(x))
    && (forall i | 0 <= i < |s.threads| :: ThreadInv(s, s.threads[i], x))
  }

  predicate ThreadInv(s: State, t: Thread, x: Surface) {
    match t
    case Seed(stage, gates) =>
      && (stage.GatesRead? && s.mirror.Get(x).None? && !ApplyPending(s, x) ==> gates.Get(x) == Effective(s).Get(x))
      && (stage.SeedLocked? || (stage.ResearchPassed? && x.Specs?) ==> gates.Get(x) == Effective(s).Get(x) || ApplyPending(s, x))
      && (stage.ResearchPassed? && x.Research? ==> s.passes.research.Some?)
      && (stage.SeedDone? ==> s.passes.Get(x).Some?)
    case Toggle(surface, want, step) =>
      (step.Saved? || step.Applying? || step.Applied?) && surface == x ==> Effective(s).Get(x) == want
  }

  ghost predicate Inv(s: State) {
    Locks(s) && s.config == s.file && SurfaceInv(s, Research) && SurfaceInv(s, Specs)
  }

  lemma InitInv(s: State)
    requires Init(s)
    ensures Inv(s)
  {
  }

  lemma SeedStepKeepsLocks(s: State, i: nat, failure: Option<Disk>)
    requires Inv(s) && i < |s.threads| && s.threads[i].Seed?
    ensures Locks(SeedStep(s, i, failure))
  {
    assert HoldsSeedMu(s.threads[i]) <==> s.seedMu == Some(i);
  }

  lemma ToggleStepKeepsLocks(s: State, i: nat, saveOk: bool, failure: Option<Disk>)
    requires Inv(s) && i < |s.threads| && s.threads[i].Toggle?
    ensures var t := ToggleStep(s, i, saveOk, failure); Locks(t) && t.config == t.file
  {
    assert HoldsSeedMu(s.threads[i]) <==> s.seedMu == Some(i);
    assert HoldsConfigMu(s.threads[i]) <==> s.configMu == Some(i);
  }

  lemma SeedReadsOrLocks(s: State, i: nat, failure: Option<Disk>, x: Surface)
    requires Inv(s) && i < |s.threads| && s.threads[i].Seed?
    requires s.threads[i].stage.SeedStart? || s.threads[i].stage.GatesRead?
    ensures SurfaceInv(SeedStep(s, i, failure), x)
  {
    assert SurfaceInv(s, x) && ThreadInv(s, s.threads[i], x);
    assert s.configMu != Some(i);
  }

  /** What a step must leave to the other threads: their own facts, in the new state. */
  lemma SurfaceFrame(s: State, t: State, i: nat, x: Surface)
    requires SurfaceInv(s, x) && i < |s.threads| && |t.threads| == |s.threads| && t.threads == s.threads[i := t.threads[i]]
    requires t.mirror.Get(x).Some? && !ApplyPending(t, x) ==> t.mirror.Get(x).value == Effective(t).Get(x)
    requires t.passes.Get(x).Some? ==> t.packs.Get(x) == DiskAfter(t.passes.Get(x).value)
    requires t.passes.Get(x).Some? && !PassPending(t, x) ==> t.passes.Get(x).value.want == Effective(t).Get(x)
    requires ThreadInv(t, t.threads[i], x)
    requires t.config == s.config && t.mirror.Get(x) == s.mirror.Get(x) && ApplyPending(t, x) == ApplyPending(s, x)
    requires s.passes.research.Some? ==> t.passes.research.Some?
    requires s.passes.specs.Some? ==> t.passes.specs.Some?
    ensures SurfaceInv(t, x)
  {
    forall j | 0 <= j < |t.threads| ensures ThreadInv(t, t.threads[j], x) {
      assert ThreadInv(s, s.threads[j], x);
    }
  }

  lemma SeedPasses(s: State, i: nat, failure: Option<Disk>, x: Surface)
    requires Inv(s) && i < |s.threads| && s.threads[i].Seed?
    requires !s.threads[i].stage.SeedStart? && !s.threads[i].stage.GatesRead?
    ensures SurfaceInv(SeedStep(s, i, failure), x)
  {
    assert SurfaceInv(s, x) && ThreadInv(s, s.threads[i], x);
    assert HoldsConfigMu(s.threads[i]) <==> s.configMu == Some(i);
    SurfaceFrame(s, SeedStep(s, i, failure), i, x);
  }

  lemma ToggleEnters(s: State, i: nat, saveOk: bool, failure: Option<Disk>, x: Surface)
    requires Inv(s) && i < |s.threads| && s.threads[i].Toggle? && s.threads[i].step.ToggleStart?
    ensures SurfaceInv(ToggleStep(s, i, saveOk, failure), x)
  {
    assert SurfaceInv(s, x);
  }

  lemma ToggleSaves(s: State, i: nat, saveOk: bool, failure: Option<Disk>, x: Surface)
    requires Inv(s) && i < |s.threads| && s.threads[i].Toggle? && s.threads[i].step.ConfigLocked?
    ensures SurfaceInv(ToggleStep(s, i, saveOk, failure), x)
  {
    assert SurfaceInv(s, x);
    assert HoldsConfigMu(s.threads[i]);
    var t := ToggleStep(s, i, saveOk, failure);
    forall j | 0 <= j < |t.threads| ensures ThreadInv(t, t.threads[j], x) {
      assert ThreadInv(s, s.threads[j], x);
      assert j != i ==> !HoldsConfigMu(s.threads[j]);
    }
  }

  lemma ToggleApplies(s: State, i: nat, saveOk: bool, failure: Option<Disk>, x: Surface)
    requires Inv(s) && i < |s.threads| && s.threads[i].Toggle? && s.threads[i].step.Saved?
    ensures SurfaceInv(ToggleStep(s, i, saveOk, failure), x)
  {
    assert SurfaceInv(s, x) && ThreadInv(s, s.threads[i], x);
    assert HoldsConfigMu(s.threads[i]);
    assert s.seedMu.None? ==> forall j | 0 <= j < |s.threads| :: !HoldsSeedMu(s.threads[j]);
  }

  lemma TogglePasses(s: State, i: nat, saveOk: bool, failure: Option<Disk>, x: Surface)
    requires Inv(s) && i < |s.threads| && s.threads[i].Toggle? && s.threads[i].step.Applying?
    ensures SurfaceInv(ToggleStep(s, i, saveOk, failure), x)
  {
    assert SurfaceInv(s, x) && ThreadInv(s, s.threads[i], x);
    assert HoldsConfigMu(s.threads[i]);
  }

  lemma ToggleLeaves(s: State, i: nat, saveOk: bool, failure: Option<Disk>, x: Surface)
    requires Inv(s) && i < |s.threads| && s.threads[i].Toggle?
    requires s.threads[i].step.Applied? || s.threads[i].step.ToggleDone?
    ensures SurfaceInv(ToggleStep(s, i, saveOk, failure), x)
  {
    assert SurfaceInv(s, x) && ThreadInv(s, s.threads[i], x);
    assert s.threads[i].step.Applied? ==> HoldsConfigMu(s.threads[i]);
  }

  lemma StepKeepsSurface(s: State, a: Action, x: Surface)
    requires Inv(s) && a.i < |s.threads|
    ensures SurfaceInv(Next(s, a), x)
  {
    match s.threads[a.i]
    case Seed(stage, _) =>
      if stage.SeedStart? || stage.GatesRead? {
        SeedReadsOrLocks(s, a.i, a.failure, x);
      } else {
        SeedPasses(s, a.i, a.failure, x);
      }
    case Toggle(_, _, step) =>
      match step {
        case ToggleStart => ToggleEnters(s, a.i, a.saveOk, a.failure, x);
        case ConfigLocked => ToggleSaves(s, a.i, a.saveOk, a.failure, x);
        case Saved => ToggleApplies(s, a.i, a.saveOk, a.failure, x);
        case Applying => TogglePasses(s, a.i, a.saveOk, a.failure, x);
        case Applied => ToggleLeaves(s, a.i, a.saveOk, a.failure, x);
        case ToggleDone => ToggleLeaves(s, a.i, a.saveOk, a.failure, x);
      }
  }

  lemma NextKeepsInv(s: State, a: Action)
    requires Inv(s)
    ensures Inv(Next(s, a))
  {
    if a.i < |s.threads| {
      if s.threads[a.i].Seed? {
        SeedStepKeepsLocks(s, a.i, a.failure);
      } else {
        ToggleStepKeepsLocks(s, a.i, a.saveOk, a.failure);
      }
      StepKeepsSurface(s, a, Research);
      StepKeepsSurface(s, a, Specs);
    }
  }

  lemma NextKeepsKinds(s: State, a: Action)
    ensures |Next(s, a).threads| == |s.threads|
    ensures forall i | 0 <= i < |s.threads| :: Next(s, a).threads[i].Seed? == s.threads[i].Seed?
  {
  }

  lemma {:induction false} RunKeepsInv(s: State, actions: seq<Action>)
    requires Init(s)
    ensures Inv(Run(s, actions)) && |Run(s, actions).threads| == |s.threads|
    ensures forall i | 0 <= i < |s.threads| :: Run(s, actions).threads[i].Seed? == s.threads[i].Seed?
    decreases |actions|
  {
    if actions == [] {
      InitInv(s);
    } else {
      RunKeepsInv(s, actions[..|actions| - 1]);
      NextKeepsInv(Run(s, actions[..|actions| - 1]), actions[|actions| - 1]);
      NextKeepsKinds(Run(s, actions[..|actions| - 1]), actions[|actions| - 1]);
    }
  }

  // ------------------------------------------------------------------------------------------------
  // Results, for any number of seeds and toggles in any interleaving
  // ------------------------------------------------------------------------------------------------

  predicate AllDone(s: State) {
    forall i | 0 <= i < |s.threads| :: Done(s.threads[i])
  }

  /** A pass did what it was asked to, or failed and left the disk that way all the same. */
  predicate Succeeded(p: Pass) {
    p.failure.None? || p.failure.value == Asked(p.want)
  }

  /**
   * Once everything has finished, the last pass on each surface was asked for the persisted gate, so the disk is
   * that of the gate exactly when that pass succeeded; earlier failures leave no trace.
   */
  lemma PacksMatchPersistedGates(s: State, actions: seq<Action>, x: Surface)
    requires Init(s) && exists i :: 0 <= i < |s.threads| && s.threads[i].Seed?
    ensures var t := Run(s, actions);
            AllDone(t) ==>
              && t.passes.Get(x).Some? && t.passes.Get(x).value.want == (t.file.Get(x) != Some(false))
              && (t.packs.Get(x) == (if t.file.Get(x) == Some(false) then Removed else Installed)
                  <==> Succeeded(t.passes.Get(x).value))
  {
    RunKeepsInv(s, actions);
    var t := Run(s, actions);
    assert SurfaceInv(t, x);
    if AllDone(t) {
      var i :| 0 <= i < |s.threads| && s.threads[i].Seed?;
      assert ThreadInv(t, t.threads[i], x);
      if t.configMu.Some? {
        assert HoldsConfigMu(t.threads[t.configMu.value]);
      }
    }
  }

  /** Even without a seed, the same holds of every surface some pass has touched, whenever configMu is free. */
  lemma TouchedSurfaceMatches(s: State, actions: seq<Action>, x: Surface)
    requires Init(s)
    ensures var t := Run(s, actions);
            t.configMu.None? && t.passes.Get(x).Some? ==>
              (t.packs.Get(x) == (if t.config.Get(x) == Some(false) then Removed else Installed)
               <==> Succeeded(t.passes.Get(x).value))
  {
    RunKeepsInv(s, actions);
    assert SurfaceInv(Run(s, actions), x);
  }

  /** Whenever configMu is free, a mirror that was written agrees with the gate, in memory and on disk. */
  lemma MirrorAgreesWithConfig(s: State, actions: seq<Action>, x: Surface)
    requires Init(s)
    ensures var t := Run(s, actions);
            t.configMu.None? ==>
              t.config == t.file && (t.mirror.Get(x).Some? ==> t.mirror.Get(x).value == (t.config.Get(x) != Some(false)))
  {
    RunKeepsInv(s, actions);
    assert SurfaceInv(Run(s, actions), x);
  }

  /** A toggle that meets no obstacle changes its gate, the mirror and its packs, and nothing of the other surface. */
  lemma ToggleAlone(s: State, i: nat, x: Surface, want: bool)
    requires i < |s.threads| && s.threads[i] == Toggle(x, want, ToggleStart) && s.configMu.None? && s.seedMu.None?
    requires (s.config.Get(x) != Some(false)) != want
    ensures var a := Action(i, true, None);
            var t, disk := Next(Next(Next(Next(Next(s, a), a), a), a), a), if want then Installed else Removed;
            t == s.(config := s.config.Set(x, Some(want)), file := s.config.Set(x, Some(want)),
                    mirror := s.mirror.Set(x, Some(want)), packs := s.packs.Set(x, disk),
                    passes := s.passes.Set(x, Some(Pass(want, None))), threads := s.threads[i := Toggle(x, want, ToggleDone)])
  {
    var a, config := Action(i, true, None), s.config.Set(x, Some(want));
    var s1 := s.(configMu := Some(i), threads := s.threads[i := Toggle(x, want, ConfigLocked)]);
    assert Next(s, a) == s1;
    var s2 := s1.(config := config, file := config, threads := s.threads[i := Toggle(x, want, Saved)]);
    assert Next(s1, a) == s2;
    var s3 := s2.(seedMu := Some(i), mirror := s.mirror.Set(x, Some(want)),
                  threads := s.threads[i := Toggle(x, want, Applying)]);
    assert Next(s2, a) == s3;
    assert Next(s3, a) == RunPacks(s3, x, Pass(want, None)).(seedMu := None,
                                                             threads := s.threads[i := Toggle(x, want, Applied)]);
  }

  /** A launch seed that meets no obstacle leaves both surfaces as their gates say, an unset gate meaning installed. */
  lemma SeedAlone(s: State, i: nat, gates: Pair<bool>)
    requires i < |s.threads| && s.threads[i] == Seed(SeedStart, gates) && s.configMu.None? && s.seedMu.None?
    requires s.mirror == Pair(None, None)
    ensures var a := Action(i, true, None);
            Next(Next(Next(Next(s, a), a), a), a).packs ==
            Pair(if s.config.research == Some(false) then Removed else Installed,
                 if s.config.specs == Some(false) then Removed else Installed)
  {
    var a, read := Action(i, true, None), Effective(s);
    var s1 := s.(threads := s.threads[i := Seed(GatesRead, read)]);
    assert Next(s, a) == s1;
    var s2 := s.(seedMu := Some(i), threads := s.threads[i := Seed(SeedLocked, read)]);
    assert Next(s1, a) == s2;
    assert Next(s2, a) == RunPacks(s2, Research, Pass(read.research, None)).(
                            threads := s.threads[i := Seed(ResearchPassed, read)]);
  }

  /** The lock order admits no circular wait: while a thread is unfinished, some thread can move. */
  lemma NoDeadlock(s: State, actions: seq<Action>)
    requires Init(s) && !AllDone(Run(s, actions))
    ensures var t := Run(s, actions); exists a :: Next(t, a) != t
  {
    RunKeepsInv(s, actions);
    var t := Run(s, actions);
    var i :| 0 <= i < |t.threads| && !Done(t.threads[i]);
    var mover := if t.seedMu.Some? then t.seedMu.value else if t.configMu.Some? then t.configMu.value else i;
    assert t.seedMu.Some? ==> HoldsSeedMu(t.threads[mover]);
    assert t.seedMu.None? && t.configMu.Some? ==> HoldsConfigMu(t.threads[mover]) && !HoldsSeedMu(t.threads[mover]);
    var a := Action(mover, true, None);
    assert Next(t, a).threads[mover] != t.threads[mover];
  }

  function StepsLeft(t: Thread): nat {
    match t
    case Seed(stage, _) =>
      (match stage case SeedStart => 4 case GatesRead => 3 case SeedLocked => 2 case ResearchPassed => 1 case SeedDone => 0)
    case Toggle(_, _, step) =>
      match step
      case ToggleStart => 5 case ConfigLocked => 4 case Saved => 3 case Applying => 2 case Applied => 1 case ToggleDone => 0
  }

  function TotalSteps(threads: seq<Thread>): nat {
    if threads == [] then 0 else StepsLeft(threads[0]) + TotalSteps(threads[1..])
  }

  lemma {:induction false} UpdateLowersTotal(threads: seq<Thread>, i: nat, t: Thread)
    requires i < |threads| && StepsLeft(t) < StepsLeft(threads[i])
    ensures TotalSteps(threads[i := t]) < TotalSteps(threads)
    decreases i
  {
    if i > 0 {
      UpdateLowersTotal(threads[1..], i - 1, t);
      assert threads[i := t][1..] == threads[1..][i - 1 := t];
    } else {
      assert threads[i := t][1..] == threads[1..];
    }
  }

  /** And every move brings the run closer to its end, so with NoDeadlock every run can be finished. */
  lemma MovesMakeProgress(s: State, a: Action)
    requires Next(s, a) != s
    ensures TotalSteps(Next(s, a).threads) < TotalSteps(s.threads)
  {
    UpdateLowersTotal(s.threads, a.i, Next(s, a).threads[a.i]);
  }

  // ------------------------------------------------------------------------------------------------
  // The calls as the backend makes them, with nothing else running
  // ------------------------------------------------------------------------------------------------

  datatype GateError = NotInitialized | PathNotSet | SaveFailed

  class FrontendAPI {
    var loaded: bool
    var configPath: string
    var config: Pair<Option<bool>>
    var file: Pair<Option<bool>>
    var mirror: Pair<Option<bool>>
    var packs: Pair<Disk>

    /** What MirrorAgreesWithConfig promises between calls. */
    predicate Settled(x: Surface)
      reads this
    {
      config == file && (mirror.Get(x).Some? ==> mirror.Get(x).value == PackEnabled(config.Get(x)))
    }

    constructor (config: Pair<Option<bool>>, path: string, packs: Pair<Disk>)
      ensures loaded && this.config == file == config && configPath == path
      ensures mirror == Pair(None, None) && this.packs == packs
      ensures Settled(Research) && Settled(Specs)
    {
      loaded, configPath, this.config, file, mirror, this.packs := true, path, config, config, Pair(None, None), packs;
    }

    /** A toggle is reported as done when its gate is saved, whatever its disk pass leaves. */
    method SetSurfaceEnabled(x: Surface, enabled: bool, saveOk: bool, failure: Option<Disk>) returns (r: Result<(), GateError>)
      requires Settled(Research) && Settled(Specs)
      modifies this`config, this`file, this`mirror, this`packs
      ensures Settled(Research) && Settled(Specs)
      ensures r.Ok? <==> loaded && configPath != "" && ((old(config).Get(x) != Some(false)) == enabled || saveOk)
      ensures r.Ok? ==> (file.Get(x) != Some(false)) == enabled
      ensures r.Ok? && (old(config).Get(x) != Some(false)) != enabled ==>
        && file.Get(x) == mirror.Get(x) == Some(enabled)
        && packs.Get(x) == if failure.Some? then failure.value else if enabled then Installed else Removed
      ensures r.Err? || (old(config).Get(x) != Some(false)) == enabled ==>
        config == old(config) && mirror == old(mirror) && packs == old(packs)
      ensures forall y: Surface | y != x :: config.Get(y) == old(config).Get(y) && packs.Get(y) == old(packs).Get(y)
    {
      if !loaded {
        return Err(NotInitialized);
      }
      if configPath == "" {
        return Err(PathNotSet);
      }
      if PackEnabled(config.Get(x)) == enabled {
        return Ok(());
      }
      var prev := config.Get(x);
      config := config.Set(x, Some(enabled));
      if !saveOk {
        config := config.Set(x, prev);
        return Err(SaveFailed);
      }
      file := config;
      ApplyPacksLocked(x, Pass(enabled, failure));
      r := Ok(());
    }

    method ApplyPacksLocked(x: Surface, p: Pass)
      modifies this`mirror, this`packs
      ensures mirror == old(mirror).Set(x, Some(p.want)) && packs == old(packs).Set(x, DiskAfter(p))
    {
      mirror := mirror.Set(x, Some(p.want));
      packs := packs.Set(x, DiskAfter(p));
    }

    /** A configuration that never loaded reads as both surfaces on. */
    method SidebarPackGates() returns (gates: Pair<bool>)
      ensures gates == if loaded then Pair(config.research != Some(false), config.specs != Some(false)) else Pair(true, true)
    {
      if !loaded {
        return Pair(true, true);
      }
      gates := Pair(PackEnabled(config.research), PackEnabled(config.specs));
    }

    /** Each surface whose own pass succeeds matches its persisted gate, whatever the disk held before. */
    method SeedGlobalPacks(failures: Pair<Option<Disk>>)
      requires loaded && Settled(Research) && Settled(Specs)
      modifies this`packs
      ensures forall x: Surface ::
        packs.Get(x) == if failures.Get(x).Some? then failures.Get(x).value
                        else if file.Get(x) == Some(false) then Removed else Installed
    {
      var gates := SidebarPackGates();
      var researchOn, specsOn := gates.research, gates.specs;
      if mirror.research.Some? {
        researchOn := mirror.research.value;
      }
      if mirror.specs.Some? {
        specsOn := mirror.specs.value;
      }
      assert mirror.research == mirror.Get(Research) && mirror.specs == mirror.Get(Specs);
      packs := Pair(DiskAfter(Pass(researchOn, failures.research)), packs.specs);
      packs := Pair(packs.research, DiskAfter(Pass(specsOn, failures.specs)));
    }
  }
}
