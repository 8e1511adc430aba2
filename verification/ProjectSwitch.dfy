/**
 * Switching projects, and the handshake that applies a switch's vector-index setup later when the manager
 * factory is not built yet. A switch runs under switchMu in several steps; the factory may become ready
 * between any two of them, and the drain that follows takes the same mutex.
 */
module ProjectSwitch {
  import opened Wrappers

  datatype Project = Project(id: string, isNoProject: bool, workspace: string)

  /** The last request made to the vector registry. */
  datatype Focus = Nothing | Left | At(id: string)

  datatype Event = Switched(id: string) | Busy(id: string) | GitMissing(id: string)

  datatype Outcome = NoSwitchYet | Succeeded(id: string) | Failed(id: string)

  /** Who holds switchMu, and where it stands. */
  datatype Holder =
    | Free
    | Entered(id: string)
    | Found(p: Project)
    | Admitted(p: Project)
    | VectorPending(p: Project)
    | VectorDone(p: Project)
    | WatcherDone(p: Project, tree: string)
    | Activated(p: Project)
    | DrainEntered
    | DrainTaken(p: Project)
    | DrainPending(p: Project)

  /**
   * `watcher` is the root of the running file watcher; `tracked` is the tree the research, papers and
   * comparisons roots derive from ("" when they are untracked). `entry`, `last`, `drained` and `started`, whether the
   * last watcher that was to start did, are history.
   */
  datatype State = State(
    holder: Holder,
    ready: bool,
    deferred: Option<Project>,
    active: Option<Project>,
    watcher: Option<string>,
    tracked: string,
    focus: Focus,
    events: seq<Event>,
    entry: (Option<Project>, Option<string>),
    last: Outcome,
    drained: bool,
    started: bool)

  const INIT := State(Free, false, None, None, None, "", Nothing, [], (None, None), NoSwitchYet, false, false)

  datatype Action =
    | FactoryReady
    | Acquire(id: string)
    | TimeOut(id: string)
    | Lookup(found: Option<Project>)
    | CheckGit(onPath: bool)
    | SetupRefused
    | RecordVector
    | ApplyVector
    | SetupWatcher(session: Option<string>, started: bool)
    | Activate
    | Announce
    | AcquireDrain
    | TakeDeferred
    | CheckStillActive

  predicate IsActive(s: State, id: string) {
    s.active.Some? && s.active.value.id == id
  }

  function Fail(s: State, id: string): State {
    s.(holder := Free, last := Failed(id))
  }

  /** The read-and-record half of switchProjectSetupVector, atomic under vectorSetupMu. */
  function Record(s: State, p: Project, pending: Holder, done: Holder): State {
    if !s.ready then s.(deferred := if p.isNoProject then None else Some(p), holder := done)
    else s.(deferred := None, holder := pending)
  }

  function FocusOn(p: Project): Focus {
    if p.isNoProject then Left else At(p.id)
  }

  /** The tree whose research directory is tracked: the session's when it has one, the checkout otherwise. */
  function TrackedTree(p: Project, session: Option<string>): string {
    if p.isNoProject || p.workspace == "" then ""
    else if session.Some? && session.value != "" then session.value
    else p.workspace
  }

  function WatchRoot(p: Project, session: Option<string>): string {
    if session.Some? && session.value != "" then session.value
    else if p.isNoProject then "" else p.workspace
  }

  /** A lookup by id either fails, finds nothing, or finds that project. */
  function Found1(s: State, id: string, found: Option<Project>): State {
    if IsActive(s, id) then
      // Already active: only the event is repeated, so a stale frontend can reconcile.
      s.(holder := Free, last := Succeeded(id), events := if found.Some? then s.events + [Switched(id)] else s.events)
    else if found.None? then Fail(s, id)
    else s.(holder := Found(found.value))
  }

  function Apply(s: State, p: Project, done: Holder): State {
    s.(focus := FocusOn(p), holder := done)
  }

  /** The previous watcher is closed first, so one that does not start leaves none behind. */
  function Watch(s: State, p: Project, session: Option<string>, started: bool): State {
    var root := WatchRoot(p, session);
    s.(watcher := if root != "" && started then Some(root) else None, started := started,
       holder := WatcherDone(p, TrackedTree(p, session)))
  }

  function Commit(s: State, p: Project, tree: string): State {
    s.(active := Some(p), tracked := tree, holder := Activated(p))
  }

  function Tell(s: State, p: Project): State {
    s.(events := s.events + [Switched(p.id)], last := Succeeded(p.id), holder := Free)
  }

  function Next(s: State, a: Action): State {
    match (s.holder, a)
    case (_, FactoryReady) => s.(ready := true)
    case (_, TimeOut(id)) => if s.holder.Free? then s else s.(events := s.events + [Busy(id)])
    case (Free, Acquire(id)) => s.(holder := Entered(id), entry := (s.active, s.watcher))
    case (Entered(id), Lookup(found)) =>
      if found.Some? && found.value.id != id then s else Found1(s, id, found)
    case (Found(p), CheckGit(onPath)) =>
      if p.isNoProject || onPath then s.(holder := Admitted(p))
      else Fail(s, p.id).(events := s.events + [GitMissing(p.id)])
    case (Admitted(p), SetupRefused) => Fail(s, p.id)
    case (Admitted(p), RecordVector) => Record(s, p, VectorPending(p), VectorDone(p))
    case (VectorPending(p), ApplyVector) => Apply(s, p, VectorDone(p))
    case (VectorDone(p), SetupWatcher(session, started)) => Watch(s, p, session, started)
    case (WatcherDone(p, tree), Activate) => Commit(s, p, tree)
    case (Activated(p), Announce) => Tell(s, p)
    case (Free, AcquireDrain) => if s.ready then s.(holder := DrainEntered) else s
    case (DrainEntered, TakeDeferred) =>
      if s.deferred.None? then s.(holder := Free, drained := true)
      else s.(deferred := None, holder := DrainTaken(s.deferred.value))
    case (DrainTaken(p), CheckStillActive) =>
      if IsActive(s, p.id) then Record(s, p, DrainPending(p), Free) else s.(holder := Free, drained := true)
    case (DrainPending(p), ApplyVector) => Apply(s, p, Free).(drained := true)
    case _ => s
  }

  function Run(s: State, actions: seq<Action>): State
    decreases |actions|
  {
    if actions == [] then s else Next(Run(s, actions[..|actions| - 1]), actions[|actions| - 1])
  }

  // ------------------------------------------------------------------------------------------------
  // The invariant
  // ------------------------------------------------------------------------------------------------

  predicate NeedsIndex(p: Option<Project>) {
    p.Some? && !p.value.isNoProject
  }

  /** A slot holding the project to set up later: the active one, or nothing when it is never indexed. */
  predicate SlotIs(slot: Option<Project>, p: Option<Project>) {
    if NeedsIndex(p) then slot.Some? && slot.value.id == p.value.id && !slot.value.isNoProject else slot.None?
  }

  /** The last request is for `p`; without an indexed project there is none, or the focus was left. */
  predicate FocusIs(focus: Focus, p: Option<Project>) {
    if NeedsIndex(p) then focus == At(p.value.id) else !focus.At?
  }

  function LastSwitched(events: seq<Event>): Option<string> {
    if events == [] then None
    else if events[|events| - 1].Switched? then Some(events[|events| - 1].id)
    else LastSwitched(events[..|events| - 1])
  }

  /** Either the setup for `p` still waits in the slot, or the last request was for it. */
  predicate Served(s: State, p: Option<Project>) {
    if !s.ready then SlotIs(s.deferred, p) && s.focus.Nothing?
    else if s.deferred.Some? then NeedsIndex(p) && SlotIs(s.deferred, p) else FocusIs(s.focus, p)
  }

  /** The file watcher of an indexed project is on the tracked tree, if it started at all. */
  predicate WatcherAgrees(s: State, p: Option<Project>, tracked: string) {
    NeedsIndex(p) && p.value.workspace != "" ==> s.watcher == if s.started then Some(tracked) else None
  }

  predicate Untouched(s: State) {
    s.entry == (s.active, s.watcher)
  }

  predicate Announced(s: State) {
    LastSwitched(s.events) == if s.active.Some? then Some(s.active.value.id) else None
  }

  /** What holds while no step of a switch is under way. */
  predicate Settled(s: State) {
    && Served(s, s.active) && Announced(s) && WatcherAgrees(s, s.active, s.tracked)
  }

  predicate LastHolds(s: State) {
    && (s.last.Failed? ==> Untouched(s))
    && (s.last.Succeeded? ==> IsActive(s, s.last.id))
  }

  predicate DrainsActive(s: State, p: Project) {
    && s.ready && s.deferred.None? && NeedsIndex(Some(p)) && NeedsIndex(s.active) && s.active.value.id == p.id
    && Announced(s) && WatcherAgrees(s, s.active, s.tracked) && LastHolds(s)
  }

  predicate Inv(s: State) {
    && (s.drained ==> s.ready && s.deferred.None?)
    && match s.holder
       case Free => Settled(s) && LastHolds(s)
       case Entered(id) => Settled(s) && Untouched(s)
       case Found(p) => Settled(s) && Untouched(s)
       case Admitted(p) => Settled(s) && Untouched(s)
       case VectorPending(p) =>
         s.ready && s.deferred.None? && Announced(s) && WatcherAgrees(s, s.active, s.tracked) && Untouched(s)
       case VectorDone(p) =>
         Served(s, Some(p)) && Announced(s) && WatcherAgrees(s, s.active, s.tracked) && Untouched(s)
       case WatcherDone(p, tree) => Served(s, Some(p)) && Announced(s) && WatcherAgrees(s, Some(p), tree)
       case Activated(p) => s.active == Some(p) && Served(s, s.active) && WatcherAgrees(s, s.active, s.tracked)
       case DrainEntered => s.ready && Settled(s) && LastHolds(s)
       case DrainTaken(p) => DrainsActive(s, p)
       case DrainPending(p) => DrainsActive(s, p)
  }

  lemma LastSwitchedAppend(events: seq<Event>, e: Event)
    ensures LastSwitched(events + [e]) == if e.Switched? then Some(e.id) else LastSwitched(events)
  {
    assert (events + [e])[..|events|] == events;
  }

  lemma NextKeepsInv(s: State, a: Action)
    requires Inv(s)
    ensures Inv(Next(s, a))
  {
    if a.FactoryReady? {
      ReadyKeepsInv(s);
    } else if a.TimeOut? {
      TimeOutKeepsInv(s, a.id);
    } else if s.holder.Free? {
      FreeStepKeepsInv(s, a);
    } else if s.holder.Entered? {
      EntryStepKeepsInv(s, a);
    } else if s.holder.Found? {
      FoundStepKeepsInv(s, a);
    } else if s.holder.Admitted? {
      AdmittedStepKeepsInv(s, a);
    } else if s.holder.DrainEntered? || s.holder.DrainTaken? || s.holder.DrainPending? {
      DrainStepKeepsInv(s, a);
    } else {
      LateStepKeepsInv(s, a);
    }
  }

  lemma ReadyKeepsInv(s: State)
    requires Inv(s)
    ensures Inv(Next(s, FactoryReady))
  {
  }

  lemma TimeOutKeepsInv(s: State, id: string)
    requires Inv(s)
    ensures Inv(Next(s, TimeOut(id)))
  {
    LastSwitchedAppend(s.events, Busy(id));
    if !s.holder.Free? {
      if InSwitch(s.holder) {
        SwitchEventsFrame(s, Next(s, TimeOut(id)).events);
      } else {
        OtherEventsFrame(s, Next(s, TimeOut(id)).events);
      }
    }
  }

  predicate InSwitch(holder: Holder) {
    holder.VectorPending? || holder.VectorDone? || holder.WatcherDone? || holder.Activated?
  }

  /** An event that announces no switch disturbs nothing. */
  lemma SwitchEventsFrame(s: State, events: seq<Event>)
    requires Inv(s) && InSwitch(s.holder) && LastSwitched(events) == LastSwitched(s.events)
    ensures Inv(s.(events := events))
  {
  }

  lemma OtherEventsFrame(s: State, events: seq<Event>)
    requires Inv(s) && !InSwitch(s.holder) && LastSwitched(events) == LastSwitched(s.events)
    ensures Inv(s.(events := events))
  {
  }

  lemma FreeStepKeepsInv(s: State, a: Action)
    requires Inv(s) && s.holder.Free? && !a.FactoryReady? && !a.TimeOut?
    ensures Inv(Next(s, a))
  {
  }

  lemma EntryStepKeepsInv(s: State, a: Action)
    requires Inv(s) && s.holder.Entered? && !a.FactoryReady? && !a.TimeOut?
    ensures Inv(Next(s, a))
  {
    if a.Lookup? {
      LookupKeepsInv(s, a.found);
    }
  }

  lemma LookupKeepsInv(s: State, found: Option<Project>)
    requires Inv(s) && s.holder.Entered?
    ensures Inv(Next(s, Lookup(found)))
  {
    if IsActive(s, s.holder.id) {
      ReannouncingKeepsInv(s, found);
    }
  }

  lemma ReannouncingKeepsInv(s: State, found: Option<Project>)
    requires Inv(s) && s.holder.Entered? && IsActive(s, s.holder.id)
    ensures Inv(Next(s, Lookup(found)))
  {
    LastSwitchedAppend(s.events, Switched(s.holder.id));
  }

  lemma FoundStepKeepsInv(s: State, a: Action)
    requires Inv(s) && s.holder.Found? && !a.FactoryReady? && !a.TimeOut?
    ensures Inv(Next(s, a))
  {
    LastSwitchedAppend(s.events, GitMissing(s.holder.p.id));
  }

  lemma AdmittedStepKeepsInv(s: State, a: Action)
    requires Inv(s) && s.holder.Admitted? && !a.FactoryReady? && !a.TimeOut?
    ensures Inv(Next(s, a))
  {
  }

  lemma LateStepKeepsInv(s: State, a: Action)
    requires Inv(s) && (s.holder.VectorPending? || s.holder.VectorDone? || s.holder.WatcherDone? || s.holder.Activated?)
    requires !a.FactoryReady? && !a.TimeOut?
    ensures Inv(Next(s, a))
  {
    LastSwitchedAppend(s.events, Switched(s.holder.p.id));
  }

  lemma DrainStepKeepsInv(s: State, a: Action)
    requires Inv(s) && (s.holder.DrainEntered? || s.holder.DrainTaken? || s.holder.DrainPending?)
    requires !a.FactoryReady? && !a.TimeOut?
    ensures Inv(Next(s, a))
  {
  }

  lemma {:induction false} RunKeepsInv(actions: seq<Action>)
    ensures Inv(Run(INIT, actions))
    decreases |actions|
  {
    if actions != [] {
      RunKeepsInv(actions[..|actions| - 1]);
      NextKeepsInv(Run(INIT, actions[..|actions| - 1]), actions[|actions| - 1]);
    }
  }

  // ------------------------------------------------------------------------------------------------
  // Results, for every run of switches, drains and the factory
  // ------------------------------------------------------------------------------------------------

  /** Until the factory is ready, the slot holds exactly the active project's setup whenever no switch is running. */
  lemma SlotHoldsActiveProject(actions: seq<Action>)
    ensures var s := Run(INIT, actions);
            s.holder.Free? && !s.ready ==> SlotIs(s.deferred, s.active) && s.focus.Nothing?
  {
    RunKeepsInv(actions);
  }

  /** Once the factory is ready, nothing is lost: the setup still waits in the slot, or was requested last. */
  lemma NoSetupLost(actions: seq<Action>)
    ensures var s := Run(INIT, actions);
            s.holder.Free? && s.ready ==>
              if s.deferred.Some? then IsActive(s, s.deferred.value.id) else FocusIs(s.focus, s.active)
  {
    RunKeepsInv(actions);
  }

  /** And once a drain has run, the last focus request is for the active project and the slot stays empty. */
  lemma DrainedFocusesActive(actions: seq<Action>)
    ensures var s := Run(INIT, actions);
            s.drained ==> s.deferred.None? && (s.holder.Free? ==> FocusIs(s.focus, s.active))
  {
    RunKeepsInv(actions);
  }

  /** A switch that failed left the active project and the watcher as it found them. */
  lemma FailedSwitchChangesNothing(actions: seq<Action>)
    ensures var s := Run(INIT, actions);
            s.holder.Free? && s.last.Failed? ==> (s.active, s.watcher) == s.entry
  {
    RunKeepsInv(actions);
  }

  /** A switch that succeeded is the one in effect, and the last announcement always names the active project. */
  lemma AnnouncementNamesActive(actions: seq<Action>)
    ensures var s := Run(INIT, actions);
            s.holder.Free? ==> Announced(s) && (s.last.Succeeded? ==> IsActive(s, s.last.id))
  {
    RunKeepsInv(actions);
  }

  /**
   * The watcher's root and the tracked roots come from one resolution of the session's tree: an indexed project with a
   * checkout is watched there whenever its watcher started, and nothing of an earlier project is.
   */
  lemma WatcherFollowsTrackedTree(actions: seq<Action>)
    ensures var s := Run(INIT, actions);
            s.holder.Free? && NeedsIndex(s.active) && s.active.value.workspace != "" ==>
              s.watcher == if s.started then Some(s.tracked) else None
  {
    RunKeepsInv(actions);
  }

  /** The drain's check that its project is still active never turns it away: no switch can have superseded it. */
  lemma DrainIsNeverSuperseded(actions: seq<Action>)
    ensures var s := Run(INIT, actions);
            s.holder.DrainTaken? ==> IsActive(s, s.holder.p.id)
  {
    RunKeepsInv(actions);
  }

  /** What the holder does next, with whatever the world answers. */
  predicate HoldersStep(holder: Holder, a: Action) {
    match holder
    case Free => false
    case Entered(id) => a.Lookup? && (a.found.Some? ==> a.found.value.id == id)
    case Found(_) => a.CheckGit?
    case Admitted(_) => a.SetupRefused? || a.RecordVector?
    case VectorPending(_) => a.ApplyVector?
    case VectorDone(_) => a.SetupWatcher?
    case WatcherDone(_, _) => a.Activate?
    case Activated(_) => a.Announce?
    case DrainEntered => a.TakeDeferred?
    case DrainTaken(_) => a.CheckStillActive?
    case DrainPending(_) => a.ApplyVector?
  }

  /** At most this many steps of its own before the holder lets go. */
  function StepsLeft(holder: Holder): nat {
    match holder
    case Free => 0
    case Entered(_) => 7
    case Found(_) => 6
    case Admitted(_) => 5
    case VectorPending(_) => 4
    case VectorDone(_) => 3
    case WatcherDone(_, _) => 2
    case Activated(_) => 1
    case DrainEntered => 3
    case DrainTaken(_) => 2
    case DrainPending(_) => 1
  }

  lemma OwnStepShortens(s: State, a: Action)
    requires HoldersStep(s.holder, a)
    ensures StepsLeft(Next(s, a).holder) < StepsLeft(s.holder)
  {
  }

  lemma OthersWait(s: State, a: Action)
    requires !s.holder.Free? && !HoldersStep(s.holder, a)
    ensures Next(s, a).holder == s.holder
  {
  }

  /**
   * Whatever the world answers, each step of the mutex holder brings it closer to letting go, it always has one, and
   * no step of anyone else moves it: a wait for switchMu is only ever a wait for at most seven steps of its holder.
   */
  lemma HolderProceeds(s: State, a: Action)
    requires !s.holder.Free?
    ensures exists own :: HoldersStep(s.holder, own)
    ensures if HoldersStep(s.holder, a) then StepsLeft(Next(s, a).holder) < StepsLeft(s.holder)
            else Next(s, a).holder == s.holder
  {
    var own := match s.holder
      case Entered(id) => Lookup(None)
      case Found(p) => CheckGit(true)
      case Admitted(p) => RecordVector
      case VectorPending(p) => ApplyVector
      case VectorDone(p) => SetupWatcher(None, true)
      case WatcherDone(p, tree) => Activate
      case Activated(p) => Announce
      case DrainEntered => TakeDeferred
      case DrainTaken(p) => CheckStillActive
      case DrainPending(p) => ApplyVector
      case Free => FactoryReady;
    assert HoldersStep(s.holder, own);
    if HoldersStep(s.holder, a) {
      OwnStepShortens(s, a);
    } else {
      OthersWait(s, a);
    }
  }

  // ------------------------------------------------------------------------------------------------
  // The methods, run without interruption
  // ------------------------------------------------------------------------------------------------

  datatype SwitchError = Timeout | LookupFailed | GitRequired | SetupFailed

  /** What the outside answers during one switch; `free(t)` says whether the mutex is free after waiting t. */
  datatype World = World(
    free: nat -> bool, found: Option<Project>, onPath: bool, setupRefused: bool,
    session: Option<string>, watcherStarts: bool)

  /** The polling interval of acquireSwitchLock, in milliseconds. */
  const TICK := 250

  /** Gives up only after the whole budget has passed and one more try has failed. */
  method AcquireSwitchLock(budget: nat, free: nat -> bool) returns (ok: bool, waited: nat)
    ensures waited <= budget
    ensures ok ==> free(waited)
    ensures !ok ==> waited == budget && !free(budget)
    ensures forall t: nat | t < waited && t % TICK == 0 :: !free(t)
  {
    waited := 0;
    while true
      invariant waited <= budget && (waited % TICK == 0 || waited == budget)
      invariant forall t: nat | t < waited && t % TICK == 0 :: !free(t)
      decreases budget - waited
    {
      if free(waited) {
        return true, waited;
      }
      var remaining := budget - waited;
      if remaining <= 0 {
        return false, waited;
      }
      waited := waited + if remaining > TICK then TICK else remaining;
    }
  }

  function AfterVector(s: State, p: Project): State {
    var t := Record(s, p, VectorPending(p), VectorDone(p));
    if s.ready then Apply(t, p, VectorDone(p)) else t
  }

  /** An admitted switch run to its end without interruption. */
  function Completed(s: State, p: Project, w: World): State {
    Tell(Commit(Watch(AfterVector(s, p), p, w.session, w.watcherStarts), p, TrackedTree(p, w.session)), p)
  }

  lemma VectorKeepsInv(s: State, p: Project)
    requires Inv(s) && s.holder == Admitted(p)
    ensures Inv(AfterVector(s, p)) && AfterVector(s, p).holder == VectorDone(p)
  {
    NextKeepsInv(s, RecordVector);
    if s.ready {
      NextKeepsInv(Next(s, RecordVector), ApplyVector);
    }
  }

  lemma RestKeepsInv(t: State, p: Project, w: World)
    requires Inv(t) && t.holder == VectorDone(p)
    ensures Inv(Tell(Commit(Watch(t, p, w.session, w.watcherStarts), p, TrackedTree(p, w.session)), p))
  {
    var u := Watch(t, p, w.session, w.watcherStarts);
    assert u == Next(t, SetupWatcher(w.session, w.watcherStarts));
    LateStepKeepsInv(t, SetupWatcher(w.session, w.watcherStarts));
    var v := Commit(u, p, TrackedTree(p, w.session));
    assert v == Next(u, Activate);
    LateStepKeepsInv(u, Activate);
    assert Tell(v, p) == Next(v, Announce);
    LateStepKeepsInv(v, Announce);
  }

  /** It is a run of the steps, so it keeps the invariant. */
  lemma CompletedKeepsInv(s: State, p: Project, w: World)
    requires Inv(s) && s.holder == Admitted(p)
    ensures Inv(Completed(s, p, w))
  {
    VectorKeepsInv(s, p);
    RestKeepsInv(AfterVector(s, p), p, w);
  }

  /** What such a switch leaves: the project in effect, watched and tracked in one tree, its setup requested or waiting. */
  lemma CompletedMeans(s: State, p: Project, w: World)
    requires s.holder == Admitted(p)
    ensures var t := Completed(s, p, w);
            var tree := if w.session.Some? && w.session.value != "" then w.session.value
                        else if p.isNoProject then "" else p.workspace;
            && t.holder.Free? && t.ready == s.ready && t.active == Some(p) && t.events == s.events + [Switched(p.id)]
            && t.watcher == (if tree != "" && w.watcherStarts then Some(tree) else None)
            && t.tracked == (if p.isNoProject || p.workspace == "" then "" else tree)
            && t.deferred == (if s.ready || p.isNoProject then None else Some(p))
            && t.focus == if !s.ready then s.focus else if p.isNoProject then Left else At(p.id)
  {
  }

  predicate Admissible(w: World) {
    w.found.Some? && (w.found.value.isNoProject || w.onPath) && !w.setupRefused
  }

  /** A wait that runs out is announced, and changes nothing else. */
  lemma BusyIsAnnounced(s: State, id: string)
    requires !s.holder.Free?
    ensures Next(s, TimeOut(id)) == s.(events := s.events + [Busy(id)])
  {
  }

  /** The steps of an admissible switch, taken one after another, are that switch. */
  lemma StepsMakeTheSwitch(s: State, id: string, w: World)
    requires s.holder.Free? && !IsActive(s, id) && Admissible(w) && w.found.value.id == id
    ensures var p := w.found.value;
            var admitted := Next(Next(Next(s, Acquire(id)), Lookup(w.found)), CheckGit(w.onPath));
            var recorded := Next(admitted, RecordVector);
            var indexed := if s.ready then Next(recorded, ApplyVector) else recorded;
            && admitted == s.(holder := Admitted(p), entry := (s.active, s.watcher))
            && Next(Next(Next(indexed, SetupWatcher(w.session, w.watcherStarts)), Activate), Announce) ==
               Completed(admitted, p, w)
  {
    var p := w.found.value;
    var entered := Next(s, Acquire(id));
    assert entered == s.(holder := Entered(id), entry := (s.active, s.watcher));
    assert Next(entered, Lookup(w.found)) == entered.(holder := Found(p));
    var admitted := entered.(holder := Admitted(p));
    VectorSteps(admitted, p);
    WatchSteps(AfterVector(admitted, p), p, w);
  }

  lemma VectorSteps(s: State, p: Project)
    requires s.holder == Admitted(p)
    ensures AfterVector(s, p) == if s.ready then Next(Next(s, RecordVector), ApplyVector) else Next(s, RecordVector)
    ensures AfterVector(s, p).holder == VectorDone(p)
  {
  }

  lemma WatchSteps(s: State, p: Project, w: World)
    requires s.holder == VectorDone(p)
    ensures Next(Next(Next(s, SetupWatcher(w.session, w.watcherStarts)), Activate), Announce) ==
            Tell(Commit(Watch(s, p, w.session, w.watcherStarts), p, TrackedTree(p, w.session)), p)
  {
  }

  /** And those of a drain that finds a setup waiting for the active project request it. */
  lemma StepsMakeTheDrain(s: State)
    requires s.holder.Free? && s.ready && s.deferred.Some? && IsActive(s, s.deferred.value.id)
    ensures var p := s.deferred.value;
            Next(Next(Next(Next(s, AcquireDrain), TakeDeferred), CheckStillActive), ApplyVector) ==
            s.(deferred := None, drained := true, focus := if p.isNoProject then Left else At(p.id))
  {
    var p := s.deferred.value;
    var taken := s.(deferred := None, holder := DrainTaken(p));
    assert Next(Next(s, AcquireDrain), TakeDeferred) == taken;
    assert Next(taken, CheckStillActive) == taken.(holder := DrainPending(p));
  }

  class FrontendAPI {
    var holder: Holder
    var ready: bool
    var deferred: Option<Project>
    var active: Option<Project>
    var watcher: Option<string>
    var tracked: string
    var focus: Focus
    var events: seq<Event>
    ghost var entry: (Option<Project>, Option<string>)
    ghost var last: Outcome
    ghost var drained: bool
    ghost var started: bool

    ghost function View(): State
      reads this
    {
      State(holder, ready, deferred, active, watcher, tracked, focus, events, entry, last, drained, started)
    }

    constructor ()
      ensures View() == INIT
    {
      holder, ready, deferred, active, watcher, tracked := Free, false, None, None, None, "";
      focus, events, entry, last, drained, started := Nothing, [], (None, None), NoSwitchYet, false, false;
    }

    method SwitchProjectSetupVector(p: Project)
      requires holder == Admitted(p)
      modifies this
      ensures View() == AfterVector(old(View()), p)
    {
      if !ready {
        if p.isNoProject {
          deferred := None;
        } else {
          deferred := Some(p);
        }
        holder := VectorDone(p);
        return;
      }
      deferred := None;
      if p.isNoProject {
        focus := Left;
      } else {
        focus := At(p.id);
      }
      holder := VectorDone(p);
    }

    method SwitchProjectSetupWatcher(p: Project, session: Option<string>, starts: bool)
      requires holder == VectorDone(p)
      modifies this
      ensures View() == Watch(old(View()), p, session, starts)
      ensures var tree := if session.Some? && session.value != "" then session.value
                          else if p.isNoProject then "" else p.workspace;
              watcher == if tree != "" && starts then Some(tree) else None
    {
      var root := if p.isNoProject then "" else p.workspace;
      if session.Some? && session.value != "" {
        root := session.value;
      }
      watcher := None;
      if root != "" && starts {
        watcher := Some(root);
      }
      holder, started := WatcherDone(p, TrackedTree(p, session)), starts;
    }

    method SwitchProjectActivate(p: Project, tree: string)
      requires holder == WatcherDone(p, tree)
      modifies this
      ensures View() == Commit(old(View()), p, tree)
    {
      active, tracked, holder := Some(p), tree, Activated(p);
    }

    method AnnounceSwitch(p: Project)
      modifies this
      ensures View() == Tell(old(View()), p)
    {
      events, last, holder := events + [Switched(p.id)], Succeeded(p.id), Free;
    }

    /** Everything after the last step that can fail. */
    method CompleteSwitch(p: Project, w: World)
      requires Inv(View()) && holder == Admitted(p)
      modifies this
      ensures Inv(View()) && View() == Completed(old(View()), p, w)
    {
      CompletedKeepsInv(View(), p, w);
      SwitchProjectSetupVector(p);
      SwitchProjectSetupWatcher(p, w.session, w.watcherStarts);
      SwitchProjectActivate(p, holder.tree);
      AnnounceSwitch(p);
    }

    /** A whole switch with nothing else running: it succeeds exactly when it could, and a failure leaves no trace. */
    method SwitchProject(id: string, w: World, budget: nat) returns (r: Result<(), SwitchError>)
      requires Inv(View()) && holder.Free? && (w.found.Some? ==> w.found.value.id == id)
      modifies this
      ensures Inv(View()) && holder.Free? && ready == old(ready)
      ensures r == Err(Timeout) ==> !w.free(budget) && !w.free(0) && events == old(events) + [Busy(id)]
      ensures r != Err(Timeout) ==> (r.Ok? <==> IsActive(old(View()), id) || Admissible(w))
      ensures r.Ok? ==> IsActive(View(), id)
      ensures r.Ok? && !IsActive(old(View()), id) ==>
        && active == w.found && events == old(events) + [Switched(id)]
        && var p := w.found.value;
           var tree := if w.session.Some? && w.session.value != "" then w.session.value
                       else if p.isNoProject then "" else p.workspace;
           && watcher == (if tree != "" && w.watcherStarts then Some(tree) else None)
           && tracked == (if p.isNoProject || p.workspace == "" then "" else tree)
           && deferred == (if ready || p.isNoProject then None else Some(p))
           && focus == if !ready then old(focus) else if p.isNoProject then Left else At(id)
      ensures r.Ok? && IsActive(old(View()), id) ==> events == old(events) + if w.found.Some? then [Switched(id)] else []
      ensures r.Err? && r != Err(Timeout) ==>
        && r.error == (if w.found.None? then LookupFailed
                       else if !w.found.value.isNoProject && !w.onPath then GitRequired else SetupFailed)
        && events == old(events) + if r == Err(GitRequired) then [GitMissing(id)] else []
      ensures r.Err? || IsActive(old(View()), id) ==>
        && active == old(active) && watcher == old(watcher) && tracked == old(tracked)
        && deferred == old(deferred) && focus == old(focus)
    {
      var ok, _ := AcquireSwitchLock(budget, w.free);
      if !ok {
        AnnounceBusy(id);
        return Err(Timeout);
      }
      if active.Some? && active.value.id == id {
        ReannounceActive(id, w.found);
        return Ok(());
      }
      r := SwitchOther(id, w);
    }

    method AnnounceBusy(id: string)
      requires Inv(View()) && holder.Free?
      modifies this`events
      ensures Inv(View()) && events == old(events) + [Busy(id)]
    {
      LastSwitchedAppend(events, Busy(id));
      events := events + [Busy(id)];
    }

    /** A switch that has the mutex, to a project that is not the active one. */
    method SwitchOther(id: string, w: World) returns (r: Result<(), SwitchError>)
      requires Inv(View()) && holder.Free? && (w.found.Some? ==> w.found.value.id == id)
      modifies this
      ensures Inv(View()) && holder.Free? && ready == old(ready) && r != Err(Timeout) && (r.Ok? <==> Admissible(w))
      ensures r.Ok? ==>
        && active == w.found && events == old(events) + [Switched(id)]
        && var p := w.found.value;
           var tree := if w.session.Some? && w.session.value != "" then w.session.value
                       else if p.isNoProject then "" else p.workspace;
           && watcher == (if tree != "" && w.watcherStarts then Some(tree) else None)
           && tracked == (if p.isNoProject || p.workspace == "" then "" else tree)
           && deferred == (if ready || p.isNoProject then None else Some(p))
           && focus == if !ready then old(focus) else if p.isNoProject then Left else At(id)
      ensures r.Err? ==>
        && r.error == (if w.found.None? then LookupFailed
                       else if !w.found.value.isNoProject && !w.onPath then GitRequired else SetupFailed)
        && events == old(events) + (if r == Err(GitRequired) then [GitMissing(id)] else [])
        && active == old(active) && watcher == old(watcher) && tracked == old(tracked)
        && deferred == old(deferred) && focus == old(focus)
    {
      r := Admit(id, w);
      if r.Ok? {
        CompletedMeans(View(), w.found.value, w);
        CompleteSwitch(w.found.value, w);
      }
    }

    /** The project is active already: only its event is repeated, if it can still be looked up. */
    method ReannounceActive(id: string, found: Option<Project>)
      requires Inv(View()) && holder.Free? && IsActive(View(), id)
      modifies this`entry, this`events, this`last
      ensures Inv(View()) && events == old(events) + if found.Some? then [Switched(id)] else []
    {
      LastSwitchedAppend(events, Switched(id));
      entry := (active, watcher);
      if found.Some? {
        events := events + [Switched(id)];
      }
      last := Succeeded(id);
    }

    /** The refusals of a switch to another project, each of which lets the lock go again. */
    method Admit(id: string, w: World) returns (r: Result<(), SwitchError>)
      requires Inv(View()) && holder.Free? && (w.found.Some? ==> w.found.value.id == id)
      modifies this`holder, this`entry, this`last, this`events
      ensures Inv(View()) && (r.Ok? <==> Admissible(w))
      ensures r.Ok? ==> holder == Admitted(w.found.value) && events == old(events)
      ensures r.Err? ==>
        && holder.Free?
        && r.error == (if w.found.None? then LookupFailed
                       else if !w.found.value.isNoProject && !w.onPath then GitRequired else SetupFailed)
        && events == old(events) + if r == Err(GitRequired) then [GitMissing(id)] else []
    {
      holder, entry := Entered(id), (active, watcher);
      if w.found.None? {
        holder, last := Free, Failed(id);
        return Err(LookupFailed);
      }
      var p := w.found.value;
      if !p.isNoProject && !w.onPath {
        holder, last, events := Free, Failed(id), events + [GitMissing(id)];
        return Err(GitRequired);
      }
      if w.setupRefused {
        holder, last := Free, Failed(id);
        return Err(SetupFailed);
      }
      holder := Admitted(p);
      r := Ok(());
    }

    /** The drain: whatever setup was left for later is requested now, unless its project is no longer active. */
    method InitVectorIndexForActiveProject()
      requires holder.Free?
      modifies this
      ensures holder.Free? && ready == old(ready)
      ensures active == old(active) && watcher == old(watcher) && events == old(events)
      ensures !ready ==> View() == old(View())
      ensures ready ==> drained && deferred.None?
      ensures ready ==>
        focus == if old(deferred).Some? && IsActive(View(), old(deferred).value.id) then FocusOn(old(deferred).value)
                 else old(focus)
      ensures old(Inv(View())) && ready ==> FocusIs(focus, active)
    {
      if !ready {
        return;
      }
      holder := DrainEntered;
      var p := deferred;
      deferred := None;
      if p.None? {
        holder, drained := Free, true;
        return;
      }
      if active.None? || active.value.id != p.value.id {
        holder, drained := Free, true;
        return;
      }
      holder := Admitted(p.value);
      SwitchProjectSetupVector(p.value);
      holder, drained := Free, true;
    }
  }
}
