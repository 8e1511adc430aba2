/**
 * The single gate that embedded-model installs and removals share, and the cancel an install publishes for the
 * operator. An install claims the gate, publishes its cancel, clears the last error, runs its preflight and then
 * downloads in the background; every way out withdraws the cancel and frees the gate.
 */
module InstallGate {
  import opened Wrappers

  datatype Operation = Idle | Install | Remove

  datatype Outcome = Busy | Refused | Succeeded | Failed | Quiet | Panicked | Removed | Cancelled | NothingToCancel

  /** How the background work ended: an error may or may not be context.Canceled. */
  datatype Ending = Success | Fault | Canceled | Panic

  datatype Stage =
    | Start
    | Claimed
    | Published
    | Retired                    // the last error is cleared; the preflight comes next
    | Running
    | Finished(ending: Ending)
    | Judged(verdict: Outcome)
    | Recorded(verdict: Outcome)
    | Withdrawn(verdict: Outcome)
    | Recovered
    | RefusalWithdrawn           // refuseEmbeddedInstall: cancel withdrawn
    | RefusalReleased            // and gate freed; the refusal is yet to be recorded
    | Cleared                    // a removal that has cleared the last error
    | Captured(run: nat)         // a cancel click that holds the run's cancel function
    | Done(outcome: Outcome)

  datatype Kind = Installer | Remover | Clicker

  datatype Thread = Thread(kind: Kind, stage: Stage)

  /**
   * A run is known by its thread. `installCancel` is the run whose cancel is published; `clicked` collects the runs
   * for which a click was recorded, `cancelled` those whose context was cancelled; `lastError` is who wrote the
   * install error.
   */
  datatype State = State(
    busyOp: Operation,
    installCancel: Option<nat>,
    requested: bool,
    clicked: set<nat>,
    cancelled: set<nat>,
    lastError: Option<nat>,
    threads: seq<Thread>)

  ghost predicate Init(s: State) {
    && s.busyOp.Idle? && s.installCancel.None? && !s.requested && s.clicked == {} && s.cancelled == {}
    && forall i | 0 <= i < |s.threads| :: s.threads[i].stage.Start?
  }

  function Goto(s: State, i: nat, stage: Stage): State
    requires i < |s.threads|
  {
    s.(threads := s.threads[i := s.threads[i].(stage := stage)])
  }

  function BeginOperation(s: State, kind: Operation): State {
    if s.busyOp.Idle? then s.(busyOp := kind) else s
  }

  function EndInstallRun(s: State): State {
    s.(installCancel := None, requested := false,
       cancelled := if s.installCancel.Some? then s.cancelled + {s.installCancel.value} else s.cancelled)
  }

  /** What the outside world decides where a step has a choice. */
  datatype Choice = Choice(refuse: bool, ending: Ending, removeError: bool)

  function InstallerStep(s: State, i: nat, c: Choice): State
    requires i < |s.threads|
  {
    match s.threads[i].stage
    case Start => Goto(BeginOperation(s, Install), i, if s.busyOp.Idle? then Claimed else Done(Busy))
    case Claimed => Goto(s.(installCancel := Some(i), requested := false), i, Published)
    case Published => Goto(s.(lastError := None), i, Retired)
    case Retired => if c.refuse then Goto(EndInstallRun(s), i, RefusalWithdrawn) else Goto(s, i, Running)
    case Running => Goto(s, i, Finished(c.ending))
    case Finished(Success) => Goto(s, i, Judged(Succeeded))
    case Finished(Fault) => Goto(s, i, Judged(Failed))
    case Finished(Canceled) => Goto(s, i, Judged(if s.requested then Quiet else Failed))
    case Finished(Panic) => Goto(EndInstallRun(s), i, Withdrawn(Panicked))
    case Judged(verdict) => Goto(s.(lastError := if verdict.Failed? then Some(i) else None), i, Recorded(verdict))
    case Recorded(verdict) => Goto(EndInstallRun(s), i, Withdrawn(verdict))
    case Withdrawn(verdict) =>
      if verdict.Panicked? then Goto(s.(lastError := Some(i)), i, Recovered)
      else Goto(s.(busyOp := Idle), i, Done(verdict))
    case Recovered => Goto(s.(busyOp := Idle), i, Done(Panicked))
    case RefusalWithdrawn => Goto(s.(busyOp := Idle), i, RefusalReleased)
    case RefusalReleased => Goto(s.(lastError := Some(i)), i, Done(Refused))
    case _ => s
  }

  function RemoverStep(s: State, i: nat, c: Choice): State
    requires i < |s.threads|
  {
    match s.threads[i].stage
    case Start => Goto(BeginOperation(s, Remove), i, if s.busyOp.Idle? then Claimed else Done(Busy))
    case Claimed => Goto(s.(lastError := None), i, Cleared)
    case Cleared => Goto(s.(lastError := if c.removeError then Some(i) else s.lastError), i, Recovered)
    case Recovered => Goto(s.(busyOp := Idle), i, Done(Removed))
    case _ => s
  }

  function ClickerStep(s: State, i: nat): State
    requires i < |s.threads|
  {
    match s.threads[i].stage
    case Start =>
      if s.installCancel.None? then Goto(s, i, Done(NothingToCancel))
      else Goto(s.(requested := true, clicked := s.clicked + {s.installCancel.value}), i, Captured(s.installCancel.value))
    case Captured(run) => Goto(s.(cancelled := s.cancelled + {run}), i, Done(Cancelled))
    case _ => s
  }

  datatype Action = Action(i: nat, choice: Choice)

  function Next(s: State, a: Action): (t: State)
    ensures |t.threads| == |s.threads|
  {
    if a.i >= |s.threads| then s
    else match s.threads[a.i].kind
      case Installer => InstallerStep(s, a.i, a.choice)
      case Remover => RemoverStep(s, a.i, a.choice)
      case Clicker => ClickerStep(s, a.i)
  }

  function Run(s: State, actions: seq<Action>): (t: State)
    ensures |t.threads| == |s.threads|
    decreases |actions|
  {
    if actions == [] then s else Next(Run(s, actions[..|actions| - 1]), actions[|actions| - 1])
  }

  // ------------------------------------------------------------------------------------------------
  // The invariant
  // ------------------------------------------------------------------------------------------------

  predicate HoldsGate(t: Thread) {
    match t.kind
    case Installer =>
      !(t.stage.Start? || t.stage.Done? || t.stage.RefusalReleased? || t.stage.Cleared? || t.stage.Captured?)
    case Remover => t.stage.Claimed? || t.stage.Cleared? || t.stage.Recovered?
    case Clicker => false
  }

  predicate Publishes(t: Thread) {
    t.kind.Installer? &&
    (t.stage.Published? || t.stage.Retired? || t.stage.Running?
     || t.stage.Finished? || t.stage.Judged? || t.stage.Recorded?)
  }

  /** The install has published a cancel, and withdrawn it. */
  predicate HasWithdrawn(t: Thread) {
    t.kind.Installer? &&
    (t.stage.Withdrawn? || t.stage.Recovered? || t.stage.RefusalWithdrawn? || t.stage.RefusalReleased? || t.stage.Done?)
  }

  predicate SaysQuiet(stage: Stage) {
    || (stage.Judged? && stage.verdict.Quiet?) || (stage.Recorded? && stage.verdict.Quiet?)
    || (stage.Withdrawn? && stage.verdict.Quiet?) || (stage.Done? && stage.outcome.Quiet?)
  }

  function KindOf(t: Thread): Operation {
    if t.kind.Installer? then Install else Remove
  }

  ghost predicate Gate(s: State) {
    && (forall i | 0 <= i < |s.threads| && HoldsGate(s.threads[i]) :: s.busyOp == KindOf(s.threads[i]))
    && (forall i, j | 0 <= i < j < |s.threads| :: !(HoldsGate(s.threads[i]) && HoldsGate(s.threads[j])))
    && (!s.busyOp.Idle? ==> exists i :: 0 <= i < |s.threads| && HoldsGate(s.threads[i]))
  }

  ghost predicate Cancel(s: State) {
    && (forall i | 0 <= i < |s.threads| :: Publishes(s.threads[i]) <==> s.installCancel == Some(i))
    && (s.installCancel.Some? ==> s.installCancel.value < |s.threads|)
    && (s.requested ==> s.installCancel.Some?)
    && (s.installCancel.Some? ==> (s.requested <==> s.installCancel.value in s.clicked))
  }

  predicate ThreadInv(s: State, i: nat, t: Thread) {
    && (t.stage.Start? || t.stage.Claimed? ==> i !in s.clicked)
    && (SaysQuiet(t.stage) ==> i in s.clicked)
    && (t.stage.Captured? ==> t.stage.run in s.clicked)
    && (i in s.cancelled ==> i in s.clicked || HasWithdrawn(t))
  }

  ghost predicate Threads(s: State) {
    && (forall i | 0 <= i < |s.threads| :: ThreadInv(s, i, s.threads[i]))
    && (forall r | r in s.clicked :: r < |s.threads|)
  }

  /** An install that has cleared the previous run's error and not yet recorded its own. */
  predicate Live(t: Thread) {
    t.kind.Installer? && (t.stage.Retired? || t.stage.Running? || t.stage.Finished? || t.stage.Judged?)
  }

  ghost predicate Errors(s: State) {
    forall i | 0 <= i < |s.threads| && Live(s.threads[i]) && s.lastError.Some? ::
      s.lastError.value < |s.threads| && s.threads[s.lastError.value].stage == Done(Refused)
  }

  ghost predicate Inv(s: State) {
    Gate(s) && Cancel(s) && Threads(s) && Errors(s)
  }

  lemma GateFrame(s: State, t: State, i: nat)
    requires Gate(s) && i < |s.threads| && |t.threads| == |s.threads|
    requires t.threads == s.threads[i := t.threads[i]] && t.threads[i].kind == s.threads[i].kind
    requires t.busyOp ==
             if HoldsGate(t.threads[i]) then KindOf(t.threads[i]) else if HoldsGate(s.threads[i]) then Idle else s.busyOp
    requires HoldsGate(t.threads[i]) ==> s.busyOp.Idle? || HoldsGate(s.threads[i])
    ensures Gate(t)
  {
    if !HoldsGate(s.threads[i]) && !HoldsGate(t.threads[i]) && !s.busyOp.Idle? {
      var h :| 0 <= h < |s.threads| && HoldsGate(s.threads[h]);
      assert HoldsGate(t.threads[h]);
    }
    if HoldsGate(t.threads[i]) {
      forall j | 0 <= j < |s.threads| && j != i ensures !HoldsGate(t.threads[j]) {
        assert t.threads[j] == s.threads[j];
      }
    }
  }

  /** What an install's step does to the gate, as GateFrame wants it. */
  predicate GateShape(s: State, t: State, i: nat) {
    && i < |s.threads| == |t.threads| && t.threads == s.threads[i := t.threads[i]] && t.threads[i].kind.Installer?
    && t.busyOp == (if HoldsGate(t.threads[i]) then Install else if HoldsGate(s.threads[i]) then Idle else s.busyOp)
    && (HoldsGate(t.threads[i]) ==> s.busyOp.Idle? || HoldsGate(s.threads[i]))
  }

  predicate Leaving(stage: Stage) {
    stage.Judged? || stage.Recorded? || stage.Withdrawn? || stage.Recovered? || stage.RefusalWithdrawn? || stage.RefusalReleased?
  }

  lemma LeavingGateShape(s: State, i: nat, c: Choice)
    requires i < |s.threads| && s.threads[i].kind.Installer? && (HoldsGate(s.threads[i]) ==> s.busyOp.Install?)
    requires InstallerStep(s, i, c) != s && Leaving(s.threads[i].stage)
    ensures GateShape(s, InstallerStep(s, i, c), i)
  {
  }

  lemma EnteringGateShape(s: State, i: nat, c: Choice)
    requires i < |s.threads| && s.threads[i].kind.Installer? && (HoldsGate(s.threads[i]) ==> s.busyOp.Install?)
    requires InstallerStep(s, i, c) != s && !Leaving(s.threads[i].stage)
    ensures GateShape(s, InstallerStep(s, i, c), i)
  {
  }

  lemma InstallerKeepsGate(s: State, i: nat, c: Choice)
    requires Gate(s) && i < |s.threads| && s.threads[i].kind.Installer?
    ensures Gate(InstallerStep(s, i, c))
  {
    var t := InstallerStep(s, i, c);
    assert HoldsGate(s.threads[i]) ==> s.busyOp.Install?;
    if t != s {
      if Leaving(s.threads[i].stage) {
        LeavingGateShape(s, i, c);
      } else {
        EnteringGateShape(s, i, c);
      }
      GateFrame(s, t, i);
    }
  }

  lemma OthersKeepGate(s: State, a: Action)
    requires Gate(s) && a.i < |s.threads| && !s.threads[a.i].kind.Installer?
    ensures Gate(Next(s, a))
  {
    var t := Next(s, a);
    assert HoldsGate(s.threads[a.i]) ==> s.busyOp.Remove?;
    if t != s {
      GateFrame(s, t, a.i);
    }
  }

  /** Who publishes changes only with the mover's stage, and whether a click is recorded stays in step. */
  lemma CancelFrame(s: State, t: State, i: nat)
    requires Cancel(s) && i < |s.threads| && |t.threads| == |s.threads|
    requires t.threads == s.threads[i := t.threads[i]]
    requires t.installCancel ==
             if Publishes(t.threads[i]) then Some(i) else if Publishes(s.threads[i]) then None else s.installCancel
    requires Publishes(t.threads[i]) ==> s.installCancel.None? || Publishes(s.threads[i])
    requires t.requested ==> t.installCancel.Some?
    requires t.installCancel.Some? ==> (t.requested <==> t.installCancel.value in t.clicked)
    ensures Cancel(t)
  {
    assert Publishes(s.threads[i]) <==> s.installCancel == Some(i);
  }

  /** A published cancel belongs to the gate's holder. */
  lemma PublisherHolds(s: State)
    requires Gate(s) && Cancel(s) && s.installCancel.Some?
    ensures s.busyOp.Install? && HoldsGate(s.threads[s.installCancel.value])
  {
    assert Publishes(s.threads[s.installCancel.value]);
  }

  /** Stages in which an install has its cancel published already and keeps it so, or has not published it yet. */
  predicate CancelNeutral(stage: Stage) {
    !(stage.Claimed? || stage.Retired? || stage.Recorded? || stage == Finished(Panic))
  }

  lemma NeutralShape(s: State, i: nat, c: Choice)
    requires i < |s.threads| && s.threads[i].kind.Installer? && CancelNeutral(s.threads[i].stage)
    ensures var t := InstallerStep(s, i, c);
            && t.installCancel == s.installCancel && t.requested == s.requested && t.clicked == s.clicked
            && t.threads == s.threads[i := t.threads[i]] && Publishes(t.threads[i]) == Publishes(s.threads[i])
  {
  }

  lemma NeutralKeepsCancel(s: State, i: nat, c: Choice)
    requires Cancel(s) && i < |s.threads| && s.threads[i].kind.Installer? && CancelNeutral(s.threads[i].stage)
    ensures Cancel(InstallerStep(s, i, c))
  {
    NeutralShape(s, i, c);
    assert Publishes(s.threads[i]) <==> s.installCancel == Some(i);
    CancelFrame(s, InstallerStep(s, i, c), i);
  }

  lemma PublishingKeepsCancel(s: State, i: nat, c: Choice)
    requires Inv(s) && i < |s.threads| && s.threads[i].kind.Installer? && s.threads[i].stage.Claimed?
    ensures Cancel(InstallerStep(s, i, c))
  {
    assert ThreadInv(s, i, s.threads[i]);
    assert HoldsGate(s.threads[i]) && !Publishes(s.threads[i]);
    if s.installCancel.Some? {
      PublisherHolds(s);
    }
    CancelFrame(s, InstallerStep(s, i, c), i);
  }

  lemma WithdrawingKeepsCancel(s: State, i: nat, c: Choice)
    requires Inv(s) && i < |s.threads| && s.threads[i].kind.Installer?
    requires s.threads[i].stage.Retired? || s.threads[i].stage.Recorded? || s.threads[i].stage == Finished(Panic)
    ensures Cancel(InstallerStep(s, i, c))
  {
    assert Publishes(s.threads[i]) && s.installCancel == Some(i);
    CancelFrame(s, InstallerStep(s, i, c), i);
  }

  lemma OthersKeepCancel(s: State, a: Action)
    requires Cancel(s) && a.i < |s.threads| && !s.threads[a.i].kind.Installer?
    ensures Cancel(Next(s, a))
  {
    var t := Next(s, a);
    if t != s {
      assert t.installCancel == s.installCancel && !Publishes(s.threads[a.i]) && !Publishes(t.threads[a.i]);
      CancelFrame(s, t, a.i);
    }
  }

  lemma StepKeepsCancel(s: State, a: Action)
    requires Inv(s) && a.i < |s.threads|
    ensures Cancel(Next(s, a))
  {
    if !s.threads[a.i].kind.Installer? {
      OthersKeepCancel(s, a);
    } else if CancelNeutral(s.threads[a.i].stage) {
      NeutralKeepsCancel(s, a.i, a.choice);
    } else if s.threads[a.i].stage.Claimed? {
      PublishingKeepsCancel(s, a.i, a.choice);
    } else {
      WithdrawingKeepsCancel(s, a.i, a.choice);
    }
  }

  /** The facts about the other threads survive while the sets grow only by the published run. */
  lemma ThreadsFrame(s: State, t: State, i: nat)
    requires Threads(s) && Cancel(s) && i < |s.threads| && |t.threads| == |s.threads|
    requires t.threads == s.threads[i := t.threads[i]]
    requires t.clicked == s.clicked || (s.installCancel.Some? && t.clicked == s.clicked + {s.installCancel.value})
    requires s.clicked <= t.clicked
    requires forall r | r in t.cancelled && r !in s.cancelled :: r in s.clicked || (r == i && HasWithdrawn(t.threads[i]))
    requires ThreadInv(t, i, t.threads[i])
    ensures Threads(t)
  {
    forall j | 0 <= j < |t.threads| ensures ThreadInv(t, j, t.threads[j]) {
      assert ThreadInv(s, j, s.threads[j]);
      assert Publishes(s.threads[j]) <==> s.installCancel == Some(j);
    }
  }

  lemma InstallerKeepsThreads(s: State, i: nat, c: Choice)
    requires Threads(s) && Cancel(s) && i < |s.threads| && s.threads[i].kind.Installer?
    ensures Threads(InstallerStep(s, i, c))
  {
    assert ThreadInv(s, i, s.threads[i]);
    assert Publishes(s.threads[i]) <==> s.installCancel == Some(i);
    ThreadsFrame(s, InstallerStep(s, i, c), i);
  }

  lemma OthersKeepThreads(s: State, a: Action)
    requires Threads(s) && Cancel(s) && a.i < |s.threads| && !s.threads[a.i].kind.Installer?
    ensures Threads(Next(s, a))
  {
    assert ThreadInv(s, a.i, s.threads[a.i]);
    assert Publishes(s.threads[a.i]) <==> s.installCancel == Some(a.i);
    ThreadsFrame(s, Next(s, a), a.i);
  }

  /** A step either leaves the error alone, clears it, or writes it as the gate's holder or as a late refusal. */
  lemma ErrorsFrame(s: State, t: State, i: nat)
    requires Gate(s) && Errors(s) && i < |s.threads| && |t.threads| == |s.threads|
    requires t.threads == s.threads[i := t.threads[i]]
    requires s.threads[i].stage == Done(Refused) ==> t.threads[i].stage == Done(Refused)
    requires
      || t.lastError.None?
      || (t.lastError == s.lastError && (Live(t.threads[i]) ==> Live(s.threads[i])))
      || (HoldsGate(s.threads[i]) && !Live(t.threads[i]))
      || (t.lastError == Some(i) && t.threads[i].stage == Done(Refused))
    ensures Errors(t)
  {
    forall j | 0 <= j < |t.threads| && Live(t.threads[j]) && t.lastError.Some?
      ensures t.lastError.value < |t.threads| && t.threads[t.lastError.value].stage == Done(Refused)
    {
      if j != i {
        assert Live(s.threads[j]) && HoldsGate(s.threads[j]);
      }
    }
  }

  /** Stages in which an install writes the error. */
  predicate WritesError(stage: Stage) {
    stage.Published? || stage.Judged? || stage.Withdrawn? || stage.RefusalReleased?
  }

  lemma InstallerKeepsErrors(s: State, i: nat, c: Choice)
    requires Inv(s) && i < |s.threads| && s.threads[i].kind.Installer?
    ensures Errors(InstallerStep(s, i, c))
  {
    if WritesError(s.threads[i].stage) {
      WritingKeepsErrors(s, i, c);
    } else {
      QuietStepKeepsErrors(s, i, c);
    }
  }

  lemma WritingKeepsErrors(s: State, i: nat, c: Choice)
    requires Inv(s) && i < |s.threads| && s.threads[i].kind.Installer? && WritesError(s.threads[i].stage)
    ensures Errors(InstallerStep(s, i, c))
  {
    ErrorsFrame(s, InstallerStep(s, i, c), i);
  }

  lemma QuietShape(s: State, i: nat, c: Choice)
    requires i < |s.threads| && s.threads[i].kind.Installer? && !WritesError(s.threads[i].stage)
    ensures var t := InstallerStep(s, i, c);
            && t.lastError == s.lastError && t.threads == s.threads[i := t.threads[i]]
            && (Live(t.threads[i]) ==> Live(s.threads[i]))
            && (s.threads[i].stage == Done(Refused) ==> t.threads[i].stage == Done(Refused))
  {
  }

  lemma QuietStepKeepsErrors(s: State, i: nat, c: Choice)
    requires Inv(s) && i < |s.threads| && s.threads[i].kind.Installer? && !WritesError(s.threads[i].stage)
    ensures Errors(InstallerStep(s, i, c))
  {
    QuietShape(s, i, c);
    ErrorsFrame(s, InstallerStep(s, i, c), i);
  }

  lemma OthersKeepErrors(s: State, a: Action)
    requires Inv(s) && a.i < |s.threads| && !s.threads[a.i].kind.Installer?
    ensures Errors(Next(s, a))
  {
    if Next(s, a) != s {
      ErrorsFrame(s, Next(s, a), a.i);
    }
  }

  lemma NextKeepsInv(s: State, a: Action)
    requires Inv(s)
    ensures Inv(Next(s, a))
  {
    if a.i < |s.threads| {
      StepKeepsCancel(s, a);
      if s.threads[a.i].kind.Installer? {
        InstallerKeepsGate(s, a.i, a.choice);
        InstallerKeepsThreads(s, a.i, a.choice);
        InstallerKeepsErrors(s, a.i, a.choice);
      } else {
        OthersKeepGate(s, a);
        OthersKeepThreads(s, a);
        OthersKeepErrors(s, a);
      }
    }
  }

  lemma {:induction false} RunKeepsInv(s: State, actions: seq<Action>)
    requires Init(s)
    ensures Inv(Run(s, actions))
    decreases |actions|
  {
    if actions != [] {
      RunKeepsInv(s, actions[..|actions| - 1]);
      NextKeepsInv(Run(s, actions[..|actions| - 1]), actions[|actions| - 1]);
    }
  }

  // ------------------------------------------------------------------------------------------------
  // Results, for any installs, removals and cancel clicks in any interleaving
  // ------------------------------------------------------------------------------------------------

  /** At most one operation holds the gate, the gate names its kind, and it is free only when nobody holds it. */
  lemma OneOperationAtATime(s: State, actions: seq<Action>, i: nat, j: nat)
    requires Init(s) && i < |s.threads| && j < |s.threads|
    ensures var t := Run(s, actions);
            && (HoldsGate(t.threads[i]) && HoldsGate(t.threads[j]) ==> i == j)
            && (HoldsGate(t.threads[i]) ==> t.busyOp == KindOf(t.threads[i]))
            && (t.busyOp.Idle? <==> forall k | 0 <= k < |t.threads| :: !HoldsGate(t.threads[k]))
  {
    RunKeepsInv(s, actions);
  }

  /**
   * A published cancel belongs to an install that holds the gate, a requested flag to a published cancel, and a
   * free gate means both are gone: every way out of an install withdraws its cancel first.
   */
  lemma CancelOnlyWhileInstalling(s: State, actions: seq<Action>)
    requires Init(s)
    ensures var t := Run(s, actions);
            && (t.installCancel.Some? ==>
                  && t.busyOp.Install? && t.installCancel.value < |t.threads|
                  && t.threads[t.installCancel.value].kind.Installer? && HoldsGate(t.threads[t.installCancel.value]))
            && (t.requested ==> t.installCancel.Some?)
            && (t.busyOp.Idle? ==> t.installCancel.None? && !t.requested)
  {
    RunKeepsInv(s, actions);
    if Run(s, actions).installCancel.Some? {
      PublisherHolds(Run(s, actions));
    }
  }

  /** A run that ends with context.Canceled is quiet exactly when the operator had clicked cancel on that very run. */
  lemma QuietExactlyWhenClicked(s: State, actions: seq<Action>, i: nat, c: Choice)
    requires Init(s) && i < |s.threads|
    ensures var t := Run(s, actions);
            && (t.threads[i].kind.Installer? && t.threads[i].stage == Finished(Canceled) ==>
                  (Next(t, Action(i, c)).threads[i].stage == Judged(Quiet) <==> i in t.clicked))
            && (t.threads[i].stage == Done(Quiet) ==> i in t.clicked)
  {
    RunKeepsInv(s, actions);
    var t := Run(s, actions);
    assert ThreadInv(t, i, t.threads[i]);
    if t.threads[i].kind.Installer? && t.threads[i].stage == Finished(Canceled) {
      assert Publishes(t.threads[i]);
    }
  }

  /** A click that fires late cancels only the run it was made on: a run nobody clicked keeps a live context. */
  lemma UnclickedRunIsNotCancelled(s: State, actions: seq<Action>, i: nat)
    requires Init(s) && i < |s.threads|
    ensures var t := Run(s, actions); Publishes(t.threads[i]) && i !in t.clicked ==> i !in t.cancelled
  {
    RunKeepsInv(s, actions);
    assert ThreadInv(Run(s, actions), i, Run(s, actions).threads[i]);
  }

  predicate AllDone(s: State) {
    forall i | 0 <= i < |s.threads| :: s.threads[i].stage.Done?
  }

  lemma NothingLeaks(s: State, actions: seq<Action>)
    requires Init(s)
    ensures var t := Run(s, actions); AllDone(t) ==> t.busyOp.Idle? && t.installCancel.None? && !t.requested
  {
    RunKeepsInv(s, actions);
    CancelOnlyWhileInstalling(s, actions);
  }

  /** An install past its Publish step shows no earlier run's error, unless a refusal recorded one after letting go. */
  lemma LiveInstallShowsOnlyRefusals(s: State, actions: seq<Action>, i: nat)
    requires Init(s) && i < |s.threads|
    ensures var t := Run(s, actions);
            Live(t.threads[i]) && t.lastError.Some? ==>
              t.lastError.value < |t.threads| && t.threads[t.lastError.value].stage == Done(Refused)
  {
    RunKeepsInv(s, actions);
  }

  /** Exactly the steps that put an error beside a live install: a refusal recorded after its gate was freed. */
  lemma StaleErrorExactlyFromLateRefusal(s: State, actions: seq<Action>, i: nat, a: Action)
    requires Init(s) && i < |s.threads|
    requires var t := Run(s, actions); i < |t.threads| && Live(t.threads[i]) && t.lastError.None? && a.i != i
    ensures var t := Run(s, actions);
            Next(t, a).lastError.Some? <==>
              a.i < |t.threads| && t.threads[a.i].kind.Installer? && t.threads[a.i].stage.RefusalReleased?
  {
    RunKeepsInv(s, actions);
    var t := Run(s, actions);
    assert HoldsGate(t.threads[i]);
    assert a.i < |t.threads| ==> !HoldsGate(t.threads[a.i]);
  }

  // ------------------------------------------------------------------------------------------------
  // Each call's own steps, with no one else moving
  // ------------------------------------------------------------------------------------------------

  function Moves(s: State, i: nat, c: Choice, n: nat): State {
    if n == 0 then s else Next(Moves(s, i, c, n - 1), Action(i, c))
  }

  /** An install on a free gate claims it, publishes its own cancel, clears the last error and runs. */
  lemma InstallStarts(s: State, i: nat, c: Choice)
    requires i < |s.threads| && s.threads[i] == Thread(Installer, Start) && s.busyOp.Idle? && !c.refuse
    ensures Moves(s, i, c, 4) ==
            Goto(s.(busyOp := Install, installCancel := Some(i), requested := false, lastError := None), i, Running)
  {
    var s1 := Goto(s.(busyOp := Install), i, Claimed);
    assert Moves(s, i, c, 1) == s1;
    var s2 := Goto(s1.(installCancel := Some(i), requested := false), i, Published);
    assert Moves(s, i, c, 2) == s2;
    assert Moves(s, i, c, 3) == Goto(s2.(lastError := None), i, Retired);
  }

  /** A busy gate refuses both kinds and changes nothing. */
  lemma BusyGateRefuses(s: State, i: nat, c: Choice)
    requires i < |s.threads| && s.threads[i].stage.Start? && !s.threads[i].kind.Clicker? && !s.busyOp.Idle?
    ensures Next(s, Action(i, c)) == Goto(s, i, Done(Busy))
  {
  }

  function Verdict(ending: Ending, clicked: bool): Outcome {
    match ending
    case Success => Succeeded
    case Fault => Failed
    case Canceled => if clicked then Quiet else Failed
    case Panic => Panicked
  }

  /**
   * However a run ends, its call frees the gate, withdraws and fires its cancel, and records an error exactly for a
   * failure, a panic, or a cancellation nobody asked for.
   */
  lemma InstallEnds(s: State, i: nat, c: Choice)
    requires i < |s.threads| && s.threads[i] == Thread(Installer, Running) && s.installCancel == Some(i)
    ensures var verdict := Verdict(c.ending, s.requested);
            Moves(s, i, c, 5) ==
            Goto(s.(busyOp := Idle, installCancel := None, requested := false, cancelled := s.cancelled + {i},
                    lastError := if verdict in {Succeeded, Quiet} then None else Some(i)), i, Done(verdict))
  {
    assert Moves(s, i, c, 1) == Goto(s, i, Finished(c.ending));
    if c.ending.Panic? {
      PanicEnds(s, i, c);
    } else {
      JudgedEnds(s, i, c);
    }
  }

  lemma PanicEnds(s: State, i: nat, c: Choice)
    requires i < |s.threads| && s.threads[i] == Thread(Installer, Running) && s.installCancel == Some(i) && c.ending.Panic?
    ensures Moves(s, i, c, 5) ==
            Goto(s.(busyOp := Idle, installCancel := None, requested := false, cancelled := s.cancelled + {i},
                    lastError := Some(i)), i, Done(Panicked))
  {
    var ended := s.(installCancel := None, requested := false, cancelled := s.cancelled + {i});
    assert Moves(s, i, c, 1) == Goto(s, i, Finished(Panic));
    assert Moves(s, i, c, 2) == Goto(ended, i, Withdrawn(Panicked));
    assert Moves(s, i, c, 3) == Goto(ended.(lastError := Some(i)), i, Recovered);
    assert Moves(s, i, c, 4) == Goto(ended.(lastError := Some(i), busyOp := Idle), i, Done(Panicked));
  }

  lemma JudgedEnds(s: State, i: nat, c: Choice)
    requires i < |s.threads| && s.threads[i] == Thread(Installer, Running) && s.installCancel == Some(i) && !c.ending.Panic?
    ensures var verdict := Verdict(c.ending, s.requested);
            Moves(s, i, c, 5) ==
            Goto(s.(busyOp := Idle, installCancel := None, requested := false, cancelled := s.cancelled + {i},
                    lastError := if verdict.Failed? then Some(i) else None), i, Done(verdict))
  {
    var verdict := Verdict(c.ending, s.requested);
    var error := if verdict.Failed? then Some(i) else None;
    var ended := s.(installCancel := None, requested := false, cancelled := s.cancelled + {i}, lastError := error);
    assert Moves(s, i, c, 1) == Goto(s, i, Finished(c.ending));
    assert Moves(s, i, c, 2) == Goto(s, i, Judged(verdict));
    assert Moves(s, i, c, 3) == Goto(s.(lastError := error), i, Recorded(verdict));
    assert Moves(s, i, c, 4) == Goto(ended, i, Withdrawn(verdict));
  }

  /** A refused install does the same and records its refusal last. */
  lemma InstallIsRefused(s: State, i: nat, c: Choice)
    requires i < |s.threads| && s.threads[i] == Thread(Installer, Retired) && s.installCancel == Some(i) && c.refuse
    ensures Moves(s, i, c, 3) ==
            Goto(s.(busyOp := Idle, installCancel := None, requested := false, cancelled := s.cancelled + {i},
                    lastError := Some(i)), i, Done(Refused))
  {
    var ended := s.(installCancel := None, requested := false, cancelled := s.cancelled + {i});
    assert Moves(s, i, c, 1) == Goto(ended, i, RefusalWithdrawn);
    assert Moves(s, i, c, 2) == Goto(ended.(busyOp := Idle), i, RefusalReleased);
  }

  /** A click requests the published cancel and fires it; without one it does nothing. */
  lemma ClickTakesEffect(s: State, i: nat, c: Choice)
    requires i < |s.threads| && s.threads[i] == Thread(Clicker, Start)
    ensures Moves(s, i, c, 2) ==
            if s.installCancel.None? then Goto(s, i, Done(NothingToCancel))
            else Goto(s.(requested := true, clicked := s.clicked + {s.installCancel.value},
                         cancelled := s.cancelled + {s.installCancel.value}), i, Done(Cancelled))
  {
    if s.installCancel.None? {
      assert Moves(s, i, c, 1) == Goto(s, i, Done(NothingToCancel));
    } else {
      assert Moves(s, i, c, 1) == Goto(s.(requested := true, clicked := s.clicked + {s.installCancel.value}), i,
                                       Captured(s.installCancel.value));
    }
  }

  /** A removal on a free gate clears the last error, records its own if it has one, and frees the gate. */
  lemma RemovalAlone(s: State, i: nat, c: Choice)
    requires i < |s.threads| && s.threads[i] == Thread(Remover, Start) && s.busyOp.Idle?
    ensures Moves(s, i, c, 4) == Goto(s.(lastError := if c.removeError then Some(i) else None), i, Done(Removed))
  {
    var s1 := Goto(s.(busyOp := Remove), i, Claimed);
    assert Moves(s, i, c, 1) == s1;
    assert Moves(s, i, c, 2) == Goto(s1.(lastError := None), i, Cleared);
    assert Moves(s, i, c, 3) == Goto(s1.(lastError := if c.removeError then Some(i) else None), i, Recovered);
  }

  function TwoInstalls(): State {
    State(Idle, None, false, {}, {}, None, [Thread(Installer, Start), Thread(Installer, Start)])
  }

  function Goes(i: nat): Action {
    Action(i, Choice(false, Success, false))
  }

  function Refuses(i: nat): Action {
    Action(i, Choice(true, Success, false))
  }

  /** The first install is refused and frees the gate; the second starts; only then is the refusal recorded. */
  function LateRefusal(): seq<Action> {
    Refused0() + [Goes(1)] + [Goes(1)] + [Goes(1)] + [Goes(1)] + [Goes(0)]
  }

  function Refused0(): seq<Action> {
    [] + [Goes(0)] + [Goes(0)] + [Goes(0)] + [Refuses(0)] + [Goes(0)]
  }

  lemma RunAppend(s: State, before: seq<Action>, a: Action)
    ensures Run(s, before + [a]) == Next(Run(s, before), a)
  {
    assert (before + [a])[..|before + [a]| - 1] == before;
  }

  lemma FirstInstallIsRefused()
    ensures Run(TwoInstalls(), Refused0()) ==
            TwoInstalls().(cancelled := {0}, threads := [Thread(Installer, RefusalReleased), Thread(Installer, Start)])
  {
    var s := TwoInstalls();
    var p: seq<Action> := [];
    RunAppend(s, p, Goes(0));
    assert Run(s, p + [Goes(0)]).threads == [Thread(Installer, Claimed), Thread(Installer, Start)];
    RunAppend(s, p + [Goes(0)], Goes(0));
    assert Run(s, p + [Goes(0)] + [Goes(0)]).threads == [Thread(Installer, Published), Thread(Installer, Start)];
    RunAppend(s, p + [Goes(0)] + [Goes(0)], Goes(0));
    var q := p + [Goes(0)] + [Goes(0)] + [Goes(0)];
    assert Run(s, q).threads == [Thread(Installer, Retired), Thread(Installer, Start)];
    RunAppend(s, q, Refuses(0));
    assert Run(s, q + [Refuses(0)]).threads == [Thread(Installer, RefusalWithdrawn), Thread(Installer, Start)];
    RunAppend(s, q + [Refuses(0)], Goes(0));
  }

  /** So the promise that a new run retires the previous failure line can break: a live install beside that line. */
  lemma LateRefusalShadowsLiveInstall()
    ensures Init(TwoInstalls())
    ensures var t := Run(TwoInstalls(), LateRefusal());
            t.threads == [Thread(Installer, Done(Refused)), Thread(Installer, Running)] && t.lastError == Some(0)
  {
    var s := TwoInstalls();
    FirstInstallIsRefused();
    var p := Refused0();
    RunAppend(s, p, Goes(1));
    assert Run(s, p + [Goes(1)]).threads == [Thread(Installer, RefusalReleased), Thread(Installer, Claimed)];
    RunAppend(s, p + [Goes(1)], Goes(1));
    var q := p + [Goes(1)] + [Goes(1)];
    assert Run(s, q).threads == [Thread(Installer, RefusalReleased), Thread(Installer, Published)];
    RunAppend(s, q, Goes(1));
    assert Run(s, q + [Goes(1)]).threads == [Thread(Installer, RefusalReleased), Thread(Installer, Retired)];
    RunAppend(s, q + [Goes(1)], Goes(1));
    RunAppend(s, q + [Goes(1)] + [Goes(1)], Goes(0));
  }

  function StepsLeft(stage: Stage): nat {
    match stage
    case Start => 10
    case Claimed => 9
    case Published => 8
    case Retired => 7
    case Running => 6
    case Finished(_) => 5
    case Judged(_) => 4
    case Recorded(_) => 3
    case Cleared => 3
    case Withdrawn(_) => 2
    case RefusalWithdrawn => 2
    case Recovered => 1
    case RefusalReleased => 1
    case Captured(_) => 1
    case Done(_) => 0
  }

  predicate Fits(t: Thread) {
    match t.kind
    case Installer => !t.stage.Cleared? && !t.stage.Captured?
    case Remover => t.stage.Start? || t.stage.Claimed? || t.stage.Cleared? || t.stage.Recovered? || t.stage.Done?
    case Clicker => t.stage.Start? || t.stage.Captured? || t.stage.Done?
  }

  lemma InstallerKeepsFits(s: State, i: nat, c: Choice)
    requires i < |s.threads| && s.threads[i].kind.Installer? && Fits(s.threads[i])
    ensures Fits(InstallerStep(s, i, c).threads[i])
  {
  }

  lemma OthersKeepFits(s: State, a: Action)
    requires a.i < |s.threads| && !s.threads[a.i].kind.Installer? && Fits(s.threads[a.i])
    ensures Fits(Next(s, a).threads[a.i])
  {
  }

  lemma OthersStay(s: State, a: Action, i: nat)
    requires i < |s.threads| && a.i != i
    ensures Next(s, a).threads[i] == s.threads[i]
  {
  }

  lemma NextKeepsFits(s: State, a: Action, i: nat)
    requires i < |s.threads| && Fits(s.threads[i])
    ensures Fits(Next(s, a).threads[i])
  {
    if a.i != i {
      OthersStay(s, a, i);
    } else if s.threads[i].kind.Installer? {
      InstallerKeepsFits(s, i, a.choice);
    } else {
      OthersKeepFits(s, a);
    }
  }

  lemma {:induction false} RunKeepsFits(s: State, actions: seq<Action>, i: nat)
    requires Init(s) && i < |s.threads|
    ensures Fits(Run(s, actions).threads[i])
    decreases |actions|
  {
    if actions != [] {
      RunKeepsFits(s, actions[..|actions| - 1], i);
      NextKeepsFits(Run(s, actions[..|actions| - 1]), actions[|actions| - 1], i);
    }
  }

  lemma MoveShortens(s: State, i: nat, c: Choice)
    requires i < |s.threads| && Fits(s.threads[i]) && !s.threads[i].stage.Done?
    ensures StepsLeft(Next(s, Action(i, c)).threads[i].stage) < StepsLeft(s.threads[i].stage)
  {
  }

  /** Nobody ever waits, and every move brings its own call closer to its end. */
  lemma EveryCallMovesOn(s: State, actions: seq<Action>, i: nat, c: Choice)
    requires Init(s) && i < |s.threads|
    ensures var t := Run(s, actions);
            t.threads[i].stage.Done? || StepsLeft(Next(t, Action(i, c)).threads[i].stage) < StepsLeft(t.threads[i].stage)
  {
    RunKeepsFits(s, actions, i);
    if !Run(s, actions).threads[i].stage.Done? {
      MoveShortens(Run(s, actions), i, c);
    }
  }

  // ------------------------------------------------------------------------------------------------
  // The gate's bookkeeping as the backend makes it
  // ------------------------------------------------------------------------------------------------

  class EmbeddedState {
    var busyOp: Operation
    var installCancel: Option<nat>
    var installCancelRequested: bool
    var cancelled: set<nat>
    var lastError: Option<string>

    predicate Valid()
      reads this
    {
      (installCancel.Some? ==> busyOp.Install?) && (installCancelRequested ==> installCancel.Some?)
    }

    constructor ()
      ensures Valid() && busyOp.Idle? && installCancel.None? && cancelled == {} && lastError.None?
    {
      busyOp, installCancel, installCancelRequested, cancelled, lastError := Idle, None, false, {}, None;
    }

    method BeginOperation(kind: Operation) returns (claimed: bool, holder: Operation)
      requires Valid() && !kind.Idle?
      modifies this`busyOp
      ensures Valid()
      ensures claimed == old(busyOp).Idle? && holder == old(busyOp)
      ensures busyOp == if claimed then kind else holder
    {
      if !busyOp.Idle? {
        return false, busyOp;
      }
      busyOp := kind;
      claimed, holder := true, Idle;
    }

    method EndOperation()
      requires Valid() && installCancel.None?
      modifies this`busyOp
      ensures Valid() && busyOp.Idle?
    {
      busyOp := Idle;
    }

    method BeginInstallRun(run: nat)
      requires Valid() && busyOp.Install?
      modifies this`installCancel, this`installCancelRequested
      ensures Valid() && installCancel == Some(run) && !installCancelRequested
    {
      installCancel, installCancelRequested := Some(run), false;
    }

    method EndInstallRun()
      requires Valid()
      modifies this`installCancel, this`installCancelRequested, this`cancelled
      ensures Valid() && installCancel.None? && !installCancelRequested
      ensures cancelled == if old(installCancel).Some? then old(cancelled) + {old(installCancel).value} else old(cancelled)
    {
      var cancel := installCancel;
      installCancel, installCancelRequested := None, false;
      if cancel.Some? {
        cancelled := cancelled + {cancel.value};
      }
    }

    /** With no install in flight the click is a no-op, and clicking twice is clicking once. */
    method CancelInstall()
      requires Valid()
      modifies this`installCancelRequested, this`cancelled
      ensures Valid()
      ensures installCancelRequested == installCancel.Some?
      ensures cancelled == if installCancel.Some? then old(cancelled) + {installCancel.value} else old(cancelled)
    {
      var cancel := installCancel;
      if cancel.Some? {
        installCancelRequested := true;
      }
      if cancel.None? {
        return;
      }
      cancelled := cancelled + {cancel.value};
    }

    /** A synchronous refusal leaves the gate free and nothing published, whatever was clicked meanwhile. */
    method RefuseInstall(error: string)
      requires Valid() && busyOp.Install?
      modifies this
      ensures Valid() && busyOp.Idle? && installCancel.None? && lastError == Some(error)
    {
      EndInstallRun();
      EndOperation();
      lastError := Some(error);
    }

    /** The background run from its outcome to the free gate; true is the quiet outcome. */
    method FinishInstall(ending: Ending, error: string) returns (quiet: bool)
      requires Valid() && busyOp.Install? && installCancel.Some?
      modifies this
      ensures Valid() && busyOp.Idle? && installCancel.None? && !installCancelRequested
      ensures old(installCancel).value in cancelled
      ensures quiet <==> ending.Canceled? && old(installCancelRequested)
      ensures lastError == if ending.Success? || quiet then None else Some(error)
    {
      quiet := ending.Canceled? && installCancelRequested;
      if ending.Panic? {
        EndInstallRun();
        lastError := Some(error);
      } else {
        lastError := if ending.Success? || quiet then None else Some(error);
        EndInstallRun();
      }
      EndOperation();
    }
  }
}
