/**
 * The single-flight refresh that carries a corrected context window of the local model into the live router.
 * A correction is persisted first and scheduled afterwards; a second schedule while a refresh is under way
 * only leaves a dirty flag, and the runner goes round once more. A rebuild pushes the model metadata into the live
 * sessions and then builds a router, which may fail: the failure is logged and the old router stays.
 */
module EmbeddedRefresh {
  import opened Wrappers

  /** One runner: about to rebuild, holding the read lock with its snapshot, or about to look at the flags. */
  datatype Runner = Begin | Snapshotted(version: nat) | Rebuilt

  /**
   * `config` counts config writes; `router` is the version the live router was built from and `sessions` the one
   * last pushed into the live sessions. `pending` holds corrections persisted but not scheduled yet, `launching`
   * the schedules that claimed the window but have not started their runner, `others` the snapshots of rebuilds
   * that hold the read lock, `proxy` the one a proxy save rebuilds from after letting the lock go. `corrections`,
   * `built` (the versions a router was built from), `covered`, `calls` and `rebuilds` are history.
   */
  datatype State = State(
    config: nat,
    router: nat,
    sessions: nat,
    scheduled: bool,
    dirty: bool,
    launching: nat,
    runners: seq<Runner>,
    pending: set<nat>,
    others: multiset<nat>,
    proxy: Option<nat>,
    corrections: set<nat>,
    built: set<nat>,
    covered: nat,
    calls: nat,
    rebuilds: nat)

  const INIT := State(0, 0, 0, false, false, 0, [], {}, multiset{}, None, {}, {0}, 0, 0, 0)

  /** `ok` is whether the router could be built. */
  datatype Action =
    | EditConfig                 // any other config write
    | PersistCorrection
    | Schedule(version: nat)
    | Launch
    | Snapshot(i: nat)
    | Install(i: nat, ok: bool)
    | Finish(i: nat)
    | OtherSnapshot
    | OtherInstall(version: nat, ok: bool)
    | ProxySnapshot
    | ProxyInstall(ok: bool)

  /** Someone holds the config read lock, so no writer can get in. */
  predicate ReadLocked(s: State) {
    s.others != multiset{} || exists i :: 0 <= i < |s.runners| && s.runners[i].Snapshotted?
  }

  function ScheduleFlags(scheduled: bool, dirty: bool): (flags: (bool, bool, bool)) {
    if scheduled then (true, true, false) else (true, dirty, true)
  }

  /** A router built from `version`, or the old one left in place. */
  function Build(s: State, version: nat, ok: bool): State {
    if ok then s.(router := version, built := s.built + {version}) else s
  }

  function Next(s: State, a: Action): State {
    match a
    case EditConfig => if ReadLocked(s) then s else s.(config := s.config + 1)
    case PersistCorrection =>
      // A proxy save holds saveMu to its end, and a correction is persisted under saveMu.
      if ReadLocked(s) || s.proxy.Some? then s
      else s.(config := s.config + 1, pending := s.pending + {s.config + 1})
    case Schedule(version) => if version !in s.pending then s else Scheduled(s, version)
    case Launch => if s.launching == 0 then s else s.(launching := s.launching - 1, runners := s.runners + [Begin])
    case Snapshot(i) =>
      if i >= |s.runners| || s.runners[i] != Begin then s
      else
        s.(runners := s.runners[i := Snapshotted(s.config)], covered := s.config, sessions := s.config,
           rebuilds := s.rebuilds + 1)
    case Install(i, ok) =>
      if i >= |s.runners| || !s.runners[i].Snapshotted? then s
      else Build(s, s.runners[i].version, ok).(runners := s.runners[i := Rebuilt])
    case Finish(i) =>
      if i >= |s.runners| || s.runners[i] != Rebuilt then s
      else if s.dirty then s.(dirty := false, runners := s.runners[i := Begin])
      else s.(scheduled := false, runners := s.runners[..i] + s.runners[i + 1..])
    case OtherSnapshot => s.(others := s.others + multiset{s.config})
    case OtherInstall(version, ok) =>
      if version !in s.others then s else Build(s, version, ok).(others := s.others - multiset{version})
    case ProxySnapshot =>
      if ReadLocked(s) || s.proxy.Some? then s else s.(config := s.config + 1, proxy := Some(s.config + 1))
    case ProxyInstall(ok) => if s.proxy.None? then s else Build(s, s.proxy.value, ok).(proxy := None)
  }

  function Scheduled(s: State, version: nat): State {
    var (scheduled, dirty, launch) := ScheduleFlags(s.scheduled, s.dirty);
    s.(pending := s.pending - {version}, scheduled := scheduled, dirty := dirty,
       launching := if launch then s.launching + 1 else s.launching,
       corrections := s.corrections + {version}, calls := s.calls + 1)
  }

  function Run(s: State, actions: seq<Action>): State
    decreases |actions|
  {
    if actions == [] then s else Next(Run(s, actions[..|actions| - 1]), actions[|actions| - 1])
  }

  // ------------------------------------------------------------------------------------------------
  // The invariant
  // ------------------------------------------------------------------------------------------------

  /** The runner has yet to take its snapshot. */
  predicate SnapshotAhead(s: State) {
    s.dirty || s.launching > 0 || s.runners == [Begin]
  }

  /** One window, one runner, and every rebuild paid for by a schedule. */
  predicate Window(s: State) {
    && s.launching + |s.runners| == (if s.scheduled then 1 else 0)
    && (s.dirty ==> s.scheduled)
    && s.rebuilds + s.launching + (if s.dirty then 1 else 0) + (if s.runners == [Begin] then 1 else 0) <= s.calls
  }

  /** Snapshots under the read lock are current, and nothing is newer than the configuration. */
  ghost predicate Versions(s: State) {
    && (forall i | 0 <= i < |s.runners| :: s.runners[i].Snapshotted? ==> s.runners[i].version == s.config)
    && (forall v | v in s.others :: v == s.config)
    && (s.proxy.Some? ==> s.proxy.value <= s.config)
    && s.covered == s.sessions <= s.config
    && s.router in s.built && (forall v | v in s.built :: v <= s.config)
  }

  /** No correction is newer than the configuration or than a proxy save under way; a scheduled one is covered. */
  ghost predicate Coverage(s: State) {
    && (forall v | v in s.pending || v in s.corrections :: v <= s.config && (s.proxy.Some? ==> v <= s.proxy.value))
    && (SnapshotAhead(s) || forall v | v in s.corrections :: v <= s.covered)
  }

  /** What any router so far has had, the live one has. */
  ghost predicate Kept(s: State) {
    forall v, w | (v in s.pending || v in s.corrections) && w in s.built && v <= w :: v <= s.router
  }

  ghost predicate Inv(s: State) {
    Window(s) && Versions(s) && Coverage(s) && Kept(s)
  }

  lemma EditKeepsInv(s: State)
    requires Inv(s)
    ensures Inv(Next(s, EditConfig))
  {
  }

  lemma PersistKeepsInv(s: State)
    requires Inv(s)
    ensures Inv(Next(s, PersistCorrection))
  {
  }

  lemma ScheduleKeepsInv(s: State, version: nat)
    requires Inv(s)
    ensures Inv(Next(s, Schedule(version)))
  {
  }

  lemma LaunchKeepsInv(s: State)
    requires Inv(s)
    ensures Inv(Next(s, Launch))
  {
    assert s.launching > 0 ==> Next(s, Launch).runners == [Begin];
  }

  lemma SnapshotKeepsInv(s: State, i: nat)
    requires Inv(s)
    ensures Inv(Next(s, Snapshot(i)))
  {
    if Next(s, Snapshot(i)) != s {
      assert s.runners == [Begin] && Next(s, Snapshot(i)).runners == [Snapshotted(s.config)];
    }
  }

  lemma InstallKeepsInv(s: State, i: nat, ok: bool)
    requires Inv(s)
    ensures Inv(Next(s, Install(i, ok)))
  {
    if Next(s, Install(i, ok)) != s {
      assert s.runners == [Snapshotted(s.config)] && Next(s, Install(i, ok)).runners == [Rebuilt];
    }
  }

  lemma FinishKeepsInv(s: State, i: nat)
    requires Inv(s)
    ensures Inv(Next(s, Finish(i)))
  {
    if Next(s, Finish(i)) != s {
      assert s.runners == [Rebuilt] && Next(s, Finish(i)).runners == if s.dirty then [Begin] else [];
    }
  }

  lemma OtherSnapshotKeepsInv(s: State)
    requires Inv(s)
    ensures Inv(Next(s, OtherSnapshot))
  {
  }

  lemma OtherInstallKeepsInv(s: State, version: nat, ok: bool)
    requires Inv(s)
    ensures Inv(Next(s, OtherInstall(version, ok)))
  {
  }

  lemma ProxySnapshotKeepsInv(s: State)
    requires Inv(s)
    ensures Inv(Next(s, ProxySnapshot))
  {
  }

  lemma ProxyInstallKeepsInv(s: State, ok: bool)
    requires Inv(s)
    ensures Inv(Next(s, ProxyInstall(ok)))
  {
  }

  lemma NextKeepsInv(s: State, a: Action)
    requires Inv(s)
    ensures Inv(Next(s, a))
  {
    match a
    case EditConfig => EditKeepsInv(s);
    case PersistCorrection => PersistKeepsInv(s);
    case Schedule(version) => ScheduleKeepsInv(s, version);
    case Launch => LaunchKeepsInv(s);
    case Snapshot(i) => SnapshotKeepsInv(s, i);
    case Install(i, ok) => InstallKeepsInv(s, i, ok);
    case Finish(i) => FinishKeepsInv(s, i);
    case OtherSnapshot => OtherSnapshotKeepsInv(s);
    case OtherInstall(version, ok) => OtherInstallKeepsInv(s, version, ok);
    case ProxySnapshot => ProxySnapshotKeepsInv(s);
    case ProxyInstall(ok) => ProxyInstallKeepsInv(s, ok);
  }

  lemma {:induction false} RunKeepsInv(actions: seq<Action>)
    ensures Inv(Run(INIT, actions))
    decreases |actions|
  {
    if actions != [] {
      RunKeepsInv(actions[..|actions| - 1]);
      NextKeepsInv(Run(INIT, actions[..|actions| - 1]), actions[|actions| - 1]);
    }
  }

  // ------------------------------------------------------------------------------------------------
  // Results, for every interleaving of corrections, schedules, runners and other rebuilds
  // ------------------------------------------------------------------------------------------------

  /** A scheduled correction is never lost: a rebuild began on a snapshot at least as new, or one is still to come. */
  lemma CorrectionCovered(actions: seq<Action>, version: nat)
    ensures var s := Run(INIT, actions);
            version in s.corrections ==> version <= s.covered || (s.scheduled && SnapshotAhead(s))
  {
    RunKeepsInv(actions);
  }

  /** So once the window is closed, the live sessions have every scheduled correction, whether routers were built or not. */
  lemma ClosedWindowReachesLiveSessions(actions: seq<Action>)
    ensures var s := Run(INIT, actions);
            !s.scheduled ==> forall v | v in s.corrections :: v <= s.sessions
  {
    RunKeepsInv(actions);
  }

  predicate Serves(version: nat, corrections: set<nat>) {
    forall v | v in corrections :: v <= version
  }

  /**
   * The router has every scheduled correction exactly when some router was built from a configuration that has
   * them all: a later one never loses any, not even one built from an outdated snapshot.
   */
  lemma RouterServesExactlyOnceBuilt(actions: seq<Action>)
    ensures var s := Run(INIT, actions);
            Serves(s.router, s.corrections) <==> exists version :: version in s.built && Serves(version, s.corrections)
  {
    RunKeepsInv(actions);
    var s := Run(INIT, actions);
    if version :| version in s.built && Serves(version, s.corrections) {
      assert forall v | v in s.corrections :: v <= version;
    }
  }

  /** In particular a closed window has served them all if its last rebuild succeeded. */
  lemma LastRebuildServes(actions: seq<Action>)
    ensures var s := Run(INIT, actions);
            !s.scheduled && s.covered in s.built ==> Serves(s.router, s.corrections)
  {
    RunKeepsInv(actions);
    RouterServesExactlyOnceBuilt(actions);
    var s := Run(INIT, actions);
    assert !s.scheduled ==> Serves(s.covered, s.corrections);
  }

  lemma RunAppend(s: State, before: seq<Action>, a: Action)
    ensures Run(s, before + [a]) == Next(Run(s, before), a)
  {
    assert (before + [a])[..|before + [a]| - 1] == before;
  }

  function Correcting(): seq<Action> {
    [] + [PersistCorrection] + [Schedule(1)] + [Launch]
  }

  /** The window closes after a failed rebuild as after any other. */
  function FailedRebuild(): seq<Action> {
    Correcting() + [Snapshot(0)] + [Install(0, false)] + [Finish(0)]
  }

  function Launched(): State {
    INIT.(config := 1, scheduled := true, corrections := {1}, calls := 1, runners := [Begin])
  }

  lemma CorrectionSteps()
    ensures Next(Next(Next(INIT, PersistCorrection), Schedule(1)), Launch) == Launched()
  {
    var s1 := INIT.(config := 1, pending := {1});
    assert Next(INIT, PersistCorrection) == s1;
    var s2 := INIT.(config := 1, scheduled := true, launching := 1, corrections := {1}, calls := 1);
    assert Next(s1, Schedule(1)) == s2 by {
      assert {1} - {1} == {};
    }
  }

  lemma CorrectionLaunches()
    ensures Run(INIT, Correcting()) == Next(Next(Next(INIT, PersistCorrection), Schedule(1)), Launch)
  {
    var p: seq<Action> := [];
    RunAppend(INIT, p, PersistCorrection);
    RunAppend(INIT, p + [PersistCorrection], Schedule(1));
    RunAppend(INIT, p + [PersistCorrection] + [Schedule(1)], Launch);
  }

  lemma FailedRebuildUnfolds()
    ensures Run(INIT, FailedRebuild()) == Next(Next(Next(Launched(), Snapshot(0)), Install(0, false)), Finish(0))
  {
    CorrectionLaunches();
    CorrectionSteps();
    var p := Correcting();
    RunAppend(INIT, p, Snapshot(0));
    RunAppend(INIT, p + [Snapshot(0)], Install(0, false));
    RunAppend(INIT, p + [Snapshot(0)] + [Install(0, false)], Finish(0));
  }

  lemma FailedRebuildSteps()
    ensures var s := Next(Next(Next(Launched(), Snapshot(0)), Install(0, false)), Finish(0));
            !s.scheduled && s.corrections == {1} && s.router == 0 && s.launching == 0 && s.runners == []
  {
    var s0 := Launched();
    var s1 := s0.(runners := [Snapshotted(1)], covered := 1, sessions := 1, rebuilds := 1);
    assert Next(s0, Snapshot(0)) == s1;
    assert Next(s1, Install(0, false)) == s1.(runners := [Rebuilt]);
  }

  /** Then the correction is in no router, and nothing is left that would put it there. */
  lemma FailedRebuildStrandsTheCorrection()
    ensures var s := Run(INIT, FailedRebuild());
            !s.scheduled && s.corrections == {1} && s.router == 0 && s.launching == 0 && s.runners == []
  {
    FailedRebuildUnfolds();
    FailedRebuildSteps();
  }

  lemma AtMostOneRunner(actions: seq<Action>)
    ensures var s := Run(INIT, actions);
            && |s.runners| + s.launching <= 1
            && (s.dirty ==> s.scheduled)
            && s.rebuilds <= s.calls
  {
    RunKeepsInv(actions);
  }

  /**
   * Because the read lock spans snapshot and install, what a refresh or any other rebuild under it builds is the
   * configuration current at that moment; and a proxy save, which lets the lock go, builds it exactly when nothing
   * was written since its snapshot.
   */
  lemma RouterReceivesCurrentConfig(actions: seq<Action>, a: Action)
    requires a.Install? || a.OtherInstall? || a.ProxyInstall?
    ensures var s := Run(INIT, actions);
            a.ok && Next(s, a) != s ==>
              (Next(s, a).router == s.config <==> (a.ProxyInstall? ==> s.proxy == Some(s.config)))
  {
    RunKeepsInv(actions);
  }

  /** A model setting is saved and built while a proxy save is under way. */
  function SettingDuringProxySave(): seq<Action> {
    [] + [ProxySnapshot] + [EditConfig] + [OtherSnapshot] + [OtherInstall(2, true)] + [ProxyInstall(true)]
  }

  lemma ProxySaveSteps()
    ensures var s := Next(Next(Next(INIT, ProxySnapshot), EditConfig), OtherSnapshot);
            Next(Next(s, OtherInstall(2, true)), ProxyInstall(true)) == INIT.(config := 2, router := 1, built := {0, 2, 1})
  {
    var s1 := INIT.(config := 1, proxy := Some(1));
    assert Next(INIT, ProxySnapshot) == s1 && Next(s1, EditConfig) == s1.(config := 2);
    var s3 := s1.(config := 2, others := multiset{2});
    assert Next(s1.(config := 2), OtherSnapshot) == s3;
    assert Next(s3, OtherInstall(2, true)) == s1.(config := 2, router := 2, built := {0, 2});
  }

  /** Then the proxy save takes the setting out of the router again, with nothing left to put it back. */
  lemma ProxySaveRollsBackTheRouter()
    ensures Run(INIT, SettingDuringProxySave()) == INIT.(config := 2, router := 1, built := {0, 2, 1})
  {
    var p: seq<Action> := [];
    RunAppend(INIT, p, ProxySnapshot);
    RunAppend(INIT, p + [ProxySnapshot], EditConfig);
    RunAppend(INIT, p + [ProxySnapshot] + [EditConfig], OtherSnapshot);
    RunAppend(INIT, p + [ProxySnapshot] + [EditConfig] + [OtherSnapshot], OtherInstall(2, true));
    RunAppend(INIT, p + [ProxySnapshot] + [EditConfig] + [OtherSnapshot] + [OtherInstall(2, true)], ProxyInstall(true));
    ProxySaveSteps();
  }

  /** The steps left to the runner if nothing more is scheduled. */
  function StepsLeft(s: State): nat {
    (if s.dirty then 3 else 0) + 4 * s.launching
    + if s.runners == [] then 0
      else match s.runners[0] case Begin => 3 case Snapshotted(_) => 2 case Rebuilt => 1
  }

  lemma RunnerStepsShorten(s: State, a: Action)
    requires Inv(s) && IsRunnerStep(a) && Next(s, a) != s
    ensures StepsLeft(Next(s, a)) < StepsLeft(s)
  {
    assert s.launching + |s.runners| == 1;
    if a.Launch? {
      assert Next(s, a).runners == [Begin];
    } else {
      assert s.runners == [s.runners[0]];
    }
  }

  lemma RunnerStepMoves(s: State, ok: bool)
    requires Inv(s) && s.scheduled
    ensures IsRunnerStep(RunnerStep(s, ok)) && Next(s, RunnerStep(s, ok)) != s
  {
    assert s.launching + |s.runners| == 1;
    if s.launching == 0 {
      assert s.runners == [s.runners[0]];
    }
  }

  /** An open window always has a step of its own, whether its build succeeds or not; each brings it closer to closing. */
  lemma OpenWindowProceeds(actions: seq<Action>, ok: bool, a: Action)
    ensures var s := Run(INIT, actions);
            && (s.scheduled ==> IsRunnerStep(RunnerStep(s, ok)) && Next(s, RunnerStep(s, ok)) != s)
            && (IsRunnerStep(a) && Next(s, a) != s ==> StepsLeft(Next(s, a)) < StepsLeft(s))
  {
    RunKeepsInv(actions);
    var s := Run(INIT, actions);
    if s.scheduled {
      RunnerStepMoves(s, ok);
    }
    if IsRunnerStep(a) && Next(s, a) != s {
      RunnerStepsShorten(s, a);
    }
  }

  predicate IsRunnerStep(a: Action) {
    a.Launch? || a.Snapshot? || a.Install? || a.Finish?
  }

  function RunnerStep(s: State, ok: bool): Action {
    if s.launching > 0 || s.runners == [] then Launch
    else match s.runners[0]
      case Begin => Snapshot(0)
      case Snapshotted(_) => Install(0, ok)
      case Rebuilt => Finish(0)
  }

  // ------------------------------------------------------------------------------------------------
  // The two sides of the window as the backend runs them
  // ------------------------------------------------------------------------------------------------

  /** One round: whether a correction lands while it rebuilds, and whether its router can be built. */
  datatype Round = Round(lands: bool, ok: bool)

  /** How often the loop goes round. */
  function Rounds(rounds: seq<Round>): nat {
    if rounds == [] || !rounds[0].lands then 1 else 1 + Rounds(rounds[1..])
  }

  /** The last round whose router could be built, counted from 1, or 0. Rounds past the list build theirs. */
  function LastBuilt(rounds: seq<Round>, done: nat): nat
    decreases done
  {
    if done == 0 then 0
    else if done > |rounds| || rounds[done - 1].ok then done
    else LastBuilt(rounds, done - 1)
  }

  class FrontendAPI {
    var config: nat
    var router: nat
    var sessions: nat
    var scheduled: bool
    var dirty: bool

    constructor ()
      ensures config == 0 && router == 0 && sessions == 0 && !scheduled && !dirty
    {
      config, router, sessions, scheduled, dirty := 0, 0, 0, false, false;
    }

    /** `launch` asks the caller to start the runner. */
    method ScheduleEmbeddedRouterRefresh() returns (launch: bool)
      modifies this`scheduled, this`dirty
      ensures (scheduled, dirty, launch) == ScheduleFlags(old(scheduled), old(dirty))
    {
      if scheduled {
        dirty := true;
        return false;
      }
      scheduled := true;
      launch := true;
    }

    /** A failed build is logged: the old router stays and nothing else shows it. */
    method RebuildAfterEmbeddedConfigChange(round: Round)
      requires scheduled
      modifies this
      ensures scheduled && sessions == old(config) && router == if round.ok then old(config) else old(router)
      ensures config == old(config) + (if round.lands then 1 else 0)
      ensures dirty == (old(dirty) || round.lands)
    {
      sessions := config;
      if round.ok {
        router := config;
      }
      if round.lands {
        config := config + 1;
        var launch := ScheduleEmbeddedRouterRefresh();
      }
    }

    /**
     * One window, alone: one round per landing and one more, after which the live sessions are on the newest
     * config and the router on that of the last round that could build one.
     */
    method RunEmbeddedRouterRefresh(rounds: seq<Round>) returns (done: nat)
      requires scheduled && !dirty
      modifies this
      ensures !scheduled && !dirty && done == Rounds(rounds) && config == old(config) + done - 1 && sessions == config
      ensures var last := LastBuilt(rounds, done);
              router == if last == 0 then old(router) else old(config) + last - 1
    {
      done := 0;
      while true
        invariant scheduled && !dirty && config == old(config) + done && done <= |rounds|
        invariant done + Rounds(rounds[done..]) == Rounds(rounds)
        invariant var last := LastBuilt(rounds, done);
                  router == if last == 0 then old(router) else old(config) + last - 1
        decreases |rounds| - done
      {
        var round := if done < |rounds| then rounds[done] else Round(false, true);
        assert done < |rounds| ==> rounds[done..][1..] == rounds[done + 1..];
        RebuildAfterEmbeddedConfigChange(round);
        done := done + 1;
        if !dirty {
          scheduled := false;
          return;
        }
        dirty := false;
      }
    }
  }
}
