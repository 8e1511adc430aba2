/**
 * Re-pointing the ChatGPT token manager at the current proxy. A push builds its client and takes a sequence
 * number while holding the auth mutex, lets go of it for the install, and takes it again afterwards; the sequence
 * numbers are what keeps an older push from overtaking a newer one in that gap.
 */
module ProxyPush {
  import opened Wrappers

  /** A proxy save, or the startup restore that publishes the manager. */
  datatype Kind = Save | Restore

  datatype Stage =
    | Start
    | Written                            // Save: the config write is done
    | Constructed(version: nat)          // Restore: the manager exists with the client of that config, unpublished
    | Published                          // Restore: the manager is visible
    | MuHeld
    | Built(version: nat)                // holds mu, client built
    | Sequenced(number: nat, version: nat)  // mu released
    | Installing(number: nat, version: nat) // holds pushMu
    | Installed
    | MuHeldAgain
    | Done
    | Unavailable                        // Restore: no manager could be constructed

  datatype Thread = Thread(kind: Kind, stage: Stage)

  /**
   * `proxy` counts proxy config writes. `client` is the config version of the manager's client, meaningful once
   * published. `built` records the version of every sequenced client, and `initial` that of the first one.
   */
  datatype State = State(
    proxy: nat,
    published: bool,
    client: nat,
    pushSeq: nat,
    installedSeq: nat,
    mu: Option<nat>,
    pushMu: Option<nat>,
    threads: seq<Thread>,
    built: seq<nat>,
    initial: nat)

  /** Any number of saves, and one restore. */
  ghost predicate Init(s: State) {
    && !s.published && s.pushSeq == s.installedSeq == 0 && s.mu.None? && s.pushMu.None? && s.built == [] && s.initial == 0
    && (forall i | 0 <= i < |s.threads| :: s.threads[i].stage.Start?)
    && (forall i, j | 0 <= i < j < |s.threads| :: !(s.threads[i].kind.Restore? && s.threads[j].kind.Restore?))
  }

  function Goto(s: State, i: nat, stage: Stage): State
    requires i < |s.threads|
  {
    s.(threads := s.threads[i := s.threads[i].(stage := stage)])
  }

  /** The section of a push that may install: an older sequence number than the installed one does nothing. */
  function InstallClient(s: State, seqNo: nat, version: nat): State {
    if seqNo > s.installedSeq then s.(installedSeq := seqNo, client := version) else s
  }

  /** One step of thread i; `ok` is whether a restore manages to construct its manager. */
  function Step(s: State, i: nat, ok: bool): State
    requires i < |s.threads|
  {
    var t := s.threads[i];
    match t.stage
    case Start =>
      if t.kind.Save? then Goto(s.(proxy := s.proxy + 1), i, Written)
      else Goto(s, i, if ok then Constructed(s.proxy) else Unavailable)
    case Written => if s.mu.Some? then s else Goto(s.(mu := Some(i)), i, MuHeld)
    case Constructed(version) =>
      if s.mu.Some? then s else Goto(s.(published := true, client := version, initial := version), i, Published)
    case Published => if s.mu.Some? then s else Goto(s.(mu := Some(i)), i, MuHeld)
    case MuHeld => if !s.published then Goto(s.(mu := None), i, Done) else Goto(s, i, Built(s.proxy))
    case Built(version) =>
      Goto(s.(pushSeq := s.pushSeq + 1, built := s.built + [version], mu := None), i, Sequenced(s.pushSeq + 1, version))
    case Sequenced(n, version) => if s.pushMu.Some? then s else Goto(s.(pushMu := Some(i)), i, Installing(n, version))
    case Installing(n, version) => Goto(InstallClient(s, n, version).(pushMu := None), i, Installed)
    case Installed => if s.mu.Some? then s else Goto(s.(mu := Some(i)), i, MuHeldAgain)
    case MuHeldAgain => Goto(s.(mu := None), i, Done)
    case Done => s
    case Unavailable => s
  }

  datatype Action = Action(i: nat, ok: bool)

  function Next(s: State, a: Action): State {
    if a.i >= |s.threads| then s else Step(s, a.i, a.ok)
  }

  function Run(s: State, actions: seq<Action>): State
    decreases |actions|
  {
    if actions == [] then s else Next(Run(s, actions[..|actions| - 1]), actions[|actions| - 1])
  }

  /** Before the call has built a client. */
  predicate Early(stage: Stage) {
    stage.Start? || stage.Written? || stage.Constructed? || stage.Published? || stage.MuHeld?
  }

  // ------------------------------------------------------------------------------------------------
  // The invariant
  // ------------------------------------------------------------------------------------------------

  predicate HoldsMu(t: Thread) {
    t.stage.MuHeld? || t.stage.Built? || t.stage.MuHeldAgain?
  }

  predicate HoldsPushMu(t: Thread) {
    t.stage.Installing?
  }

  ghost predicate Locks(s: State) {
    && (forall i | 0 <= i < |s.threads| :: HoldsMu(s.threads[i]) <==> s.mu == Some(i))
    && (forall i | 0 <= i < |s.threads| :: HoldsPushMu(s.threads[i]) <==> s.pushMu == Some(i))
    && (s.mu.Some? ==> s.mu.value < |s.threads|)
    && (s.pushMu.Some? ==> s.pushMu.value < |s.threads|)
  }

  /** The config version of the newest sequenced client, or of the first one. */
  function Newest(s: State): nat {
    if s.built == [] then s.initial else s.built[|s.built| - 1]
  }

  predicate ThreadInv(s: State, t: Thread) {
    match t.stage
    case Constructed(version) => version <= s.proxy && !s.published && t.kind.Restore?
    case Built(version) => Newest(s) <= version <= s.proxy && s.published
    case Sequenced(n, version) => 1 <= n <= |s.built| && s.built[n - 1] == version
    case Installing(n, version) => 1 <= n <= |s.built| && s.built[n - 1] == version
    case Written => t.kind.Save?
    case Published => s.published && t.kind.Restore?
    case Start => t.kind.Restore? ==> !s.published
    case _ => true
  }

  ghost predicate Versions(s: State) {
    Numbers(s) && forall i | 0 <= i < |s.threads| :: ThreadInv(s, s.threads[i])
  }

  /** What a step leaves alone when it only moves a thread. */
  ghost predicate Numbers(s: State) {
    && |s.built| == s.pushSeq && s.installedSeq <= s.pushSeq
    && (s.built != [] ==> s.published)
    && (forall j, k | 0 <= j < k < |s.built| :: s.built[j] <= s.built[k])
    && (forall k | 0 <= k < |s.built| :: s.initial <= s.built[k])
    && Newest(s) <= s.proxy
    && (s.published ==> s.client == if s.installedSeq == 0 then s.initial else s.built[s.installedSeq - 1])
    && (s.installedSeq == 0 || s.published)
    && (!s.published ==> s.initial == 0)
  }

  /** The newest sequence number is installed, or the thread that drew it has yet to try. */
  ghost predicate LastWillInstall(s: State) {
    s.installedSeq == s.pushSeq
    || exists i :: 0 <= i < |s.threads| && Carries(s.threads[i], s.pushSeq)
  }

  predicate Carries(t: Thread, n: nat) {
    (t.stage.Sequenced? || t.stage.Installing?) && t.stage.number == n
  }

  /** This thread will still build a client, from the config it finds then. */
  predicate WillBuild(t: Thread) {
    t.stage.Written? || t.stage.Published? || t.stage.MuHeld?
  }

  /** The newest config has a client, being sequenced or sequenced already, or one is still to be built. */
  ghost predicate Covered(s: State) {
    s.published ==>
      || (exists i :: 0 <= i < |s.threads| && WillBuild(s.threads[i]))
      || (exists i :: 0 <= i < |s.threads| && s.threads[i].stage == Built(s.proxy))
      || ((forall i | 0 <= i < |s.threads| :: !s.threads[i].stage.Built?) && s.built != [] && Newest(s) == s.proxy)
  }

  ghost predicate OneRestore(s: State) {
    forall i, j | 0 <= i < j < |s.threads| :: !(s.threads[i].kind.Restore? && s.threads[j].kind.Restore?)
  }

  ghost predicate Inv(s: State) {
    Locks(s) && Versions(s) && LastWillInstall(s) && Covered(s) && OneRestore(s)
  }

  lemma InitInv(s: State)
    requires Init(s)
    ensures Inv(s)
  {
  }

  /** Moving one thread keeps the mutexes in order when it takes only a free one and names what it holds. */
  lemma LockFrame(s: State, t: State, i: nat)
    requires Locks(s) && i < |s.threads| && |t.threads| == |s.threads|
    requires t.threads == s.threads[i := t.threads[i]]
    requires t.mu == if HoldsMu(t.threads[i]) then Some(i) else if HoldsMu(s.threads[i]) then None else s.mu
    requires HoldsMu(t.threads[i]) ==> s.mu.None? || HoldsMu(s.threads[i])
    requires t.pushMu ==
             if HoldsPushMu(t.threads[i]) then Some(i) else if HoldsPushMu(s.threads[i]) then None else s.pushMu
    requires HoldsPushMu(t.threads[i]) ==> s.pushMu.None?
    ensures Locks(t)
  {
    assert HoldsMu(s.threads[i]) <==> s.mu == Some(i);
    assert HoldsPushMu(s.threads[i]) <==> s.pushMu == Some(i);
  }

  /** What a step does to mu, as LockFrame wants it. */
  predicate MuShape(s: State, t: State, i: nat) {
    && i < |s.threads| && |t.threads| == |s.threads| && t.threads == s.threads[i := t.threads[i]]
    && t.mu == (if HoldsMu(t.threads[i]) then Some(i) else if HoldsMu(s.threads[i]) then None else s.mu)
    && (HoldsMu(t.threads[i]) ==> s.mu.None? || HoldsMu(s.threads[i]))
  }

  lemma EarlyMuShape(s: State, i: nat, ok: bool)
    requires Locks(s) && i < |s.threads| && Step(s, i, ok) != s && Early(s.threads[i].stage)
    ensures MuShape(s, Step(s, i, ok), i)
  {
    assert HoldsMu(s.threads[i]) <==> s.mu == Some(i);
  }

  lemma LateMuShape(s: State, i: nat, ok: bool)
    requires Locks(s) && i < |s.threads| && Step(s, i, ok) != s && !Early(s.threads[i].stage)
    ensures MuShape(s, Step(s, i, ok), i)
  {
    assert HoldsMu(s.threads[i]) <==> s.mu == Some(i);
  }

  lemma PushLockShape(s: State, i: nat, ok: bool)
    requires Locks(s) && i < |s.threads| && Step(s, i, ok) != s
    ensures var t := Step(s, i, ok);
            && t.pushMu == (if HoldsPushMu(t.threads[i]) then Some(i) else if HoldsPushMu(s.threads[i]) then None else s.pushMu)
            && (HoldsPushMu(t.threads[i]) ==> s.pushMu.None?)
  {
    assert HoldsPushMu(s.threads[i]) <==> s.pushMu == Some(i);
  }

  lemma StepKeepsLocks(s: State, i: nat, ok: bool)
    requires Locks(s) && i < |s.threads|
    ensures Locks(Step(s, i, ok))
  {
    if Step(s, i, ok) != s {
      if Early(s.threads[i].stage) {
        EarlyMuShape(s, i, ok);
      } else {
        LateMuShape(s, i, ok);
      }
      PushLockShape(s, i, ok);
      LockFrame(s, Step(s, i, ok), i);
    }
  }

  predicate KindKept(s: State, t: State, i: nat) {
    i < |s.threads| == |t.threads| && t.threads == s.threads[i := t.threads[i]] && t.threads[i].kind == s.threads[i].kind
  }

  lemma EarlyKeepsKind(s: State, i: nat, ok: bool)
    requires i < |s.threads| && Early(s.threads[i].stage)
    ensures KindKept(s, Step(s, i, ok), i)
  {
  }

  lemma LateKeepsKind(s: State, i: nat, ok: bool)
    requires i < |s.threads| && !Early(s.threads[i].stage)
    ensures KindKept(s, Step(s, i, ok), i)
  {
  }

  lemma StepKeepsOneRestore(s: State, i: nat, ok: bool)
    requires OneRestore(s) && i < |s.threads|
    ensures OneRestore(Step(s, i, ok))
  {
    if Early(s.threads[i].stage) {
      EarlyKeepsKind(s, i, ok);
    } else {
      LateKeepsKind(s, i, ok);
    }
  }

  /** Stages that touch neither the versions nor what is published. */
  predicate Neutral(stage: Stage) {
    stage.Written? || stage.Published? || stage.Sequenced? || stage.Installed? || stage.MuHeldAgain? || stage.Done?
    || stage.Unavailable?
  }

  lemma NeutralShape(s: State, i: nat, ok: bool)
    requires i < |s.threads| && Neutral(s.threads[i].stage) && ThreadInv(s, s.threads[i])
    ensures var t := Step(s, i, ok);
            && t == s.(mu := t.mu, pushMu := t.pushMu, threads := s.threads[i := t.threads[i]])
            && ThreadInv(s, t.threads[i])
  {
  }

  lemma NeutralKeepsVersions(s: State, i: nat, ok: bool)
    requires Versions(s) && i < |s.threads| && Neutral(s.threads[i].stage)
    ensures Versions(Step(s, i, ok))
  {
    var t := Step(s, i, ok);
    NeutralShape(s, i, ok);
    forall j | 0 <= j < |t.threads| ensures ThreadInv(t, t.threads[j]) {
      assert ThreadInv(s, s.threads[j]);
    }
  }

  lemma StartKeepsVersions(s: State, i: nat, ok: bool)
    requires Versions(s) && i < |s.threads| && s.threads[i].stage.Start?
    ensures Versions(Step(s, i, ok))
  {
    assert ThreadInv(s, s.threads[i]);
  }

  lemma PublishKeepsVersions(s: State, i: nat, ok: bool)
    requires Versions(s) && OneRestore(s) && i < |s.threads| && s.threads[i].stage.Constructed?
    ensures Versions(Step(s, i, ok))
  {
    assert ThreadInv(s, s.threads[i]);
    forall j | 0 <= j < |s.threads| && j != i ensures s.threads[j].kind.Save? && ThreadInv(s, s.threads[j]) {
      assert ThreadInv(s, s.threads[j]);
    }
  }

  /** Only one thread holds mu, so only one is about to sequence. */
  lemma OneBuilder(s: State, i: nat, j: nat)
    requires Locks(s) && i < |s.threads| && j < |s.threads| && i != j && HoldsMu(s.threads[i])
    ensures !HoldsMu(s.threads[j])
  {
    assert s.mu == Some(i);
  }

  lemma BuildKeepsVersions(s: State, i: nat, ok: bool)
    requires Versions(s) && Locks(s) && i < |s.threads| && s.threads[i].stage.MuHeld?
    ensures Versions(Step(s, i, ok))
  {
    assert ThreadInv(s, s.threads[i]);
    var t := Step(s, i, ok);
    forall j | 0 <= j < |t.threads| ensures ThreadInv(t, t.threads[j]) {
      assert ThreadInv(s, s.threads[j]);
    }
  }

  lemma SequencingKeepsNumbers(s: State, i: nat, ok: bool)
    requires Numbers(s) && i < |s.threads| && s.threads[i].stage.Built? && ThreadInv(s, s.threads[i])
    ensures Numbers(Step(s, i, ok))
  {
  }

  lemma SequencingKeepsVersions(s: State, i: nat, ok: bool)
    requires Versions(s) && Locks(s) && i < |s.threads| && s.threads[i].stage.Built?
    ensures Versions(Step(s, i, ok))
  {
    assert ThreadInv(s, s.threads[i]);
    SequencingKeepsNumbers(s, i, ok);
    var t := Step(s, i, ok);
    forall j | 0 <= j < |t.threads| ensures ThreadInv(t, t.threads[j]) {
      assert ThreadInv(s, s.threads[j]);
      if j != i {
        OneBuilder(s, i, j);
      }
    }
  }

  lemma InstallKeepsVersions(s: State, i: nat, ok: bool)
    requires Versions(s) && i < |s.threads| && s.threads[i].stage.Installing?
    ensures Versions(Step(s, i, ok))
  {
    assert ThreadInv(s, s.threads[i]);
  }

  lemma StepKeepsVersions(s: State, i: nat, ok: bool)
    requires Versions(s) && Locks(s) && OneRestore(s) && i < |s.threads|
    ensures Versions(Step(s, i, ok))
  {
    var stage := s.threads[i].stage;
    if Neutral(stage) {
      NeutralKeepsVersions(s, i, ok);
    } else if stage.Start? {
      StartKeepsVersions(s, i, ok);
    } else if stage.Constructed? {
      PublishKeepsVersions(s, i, ok);
    } else if stage.Installing? {
      InstallKeepsVersions(s, i, ok);
    } else if stage.MuHeld? {
      BuildKeepsVersions(s, i, ok);
    } else {
      SequencingKeepsVersions(s, i, ok);
    }
  }

  lemma StepKeepsLastWillInstall(s: State, i: nat, ok: bool)
    requires Versions(s) && LastWillInstall(s) && i < |s.threads|
    ensures LastWillInstall(Step(s, i, ok))
  {
    assert ThreadInv(s, s.threads[i]);
    var t := Step(s, i, ok);
    if j :| 0 <= j < |s.threads| && Carries(s.threads[j], s.pushSeq) {
      assert t.pushSeq == s.pushSeq && t.installedSeq < t.pushSeq ==> Carries(t.threads[j], t.pushSeq);
    }
    assert t.pushSeq != s.pushSeq ==> Carries(t.threads[i], t.pushSeq);
  }

  lemma SequencingKeepsCovered(s: State, i: nat, ok: bool)
    requires Covered(s) && Versions(s) && Locks(s) && i < |s.threads| && s.threads[i].stage.Built?
    ensures Covered(Step(s, i, ok))
  {
    assert ThreadInv(s, s.threads[i]);
    var t := Step(s, i, ok);
    forall j | 0 <= j < |s.threads| && j != i ensures !s.threads[j].stage.Built? && t.threads[j] == s.threads[j] {
      assert HoldsMu(s.threads[i]) && HoldsMu(s.threads[j]) ==> s.mu == Some(i) && s.mu == Some(j);
    }
    if j :| 0 <= j < |s.threads| && WillBuild(s.threads[j]) {
      assert WillBuild(t.threads[j]);
    }
  }

  /** A step of a thread that is not about to build or sequence keeps whatever covers the newest config. */
  lemma OtherStepKeepsCovered(s: State, i: nat, ok: bool)
    requires Covered(s) && Versions(s) && i < |s.threads| && s.published
    requires !WillBuild(s.threads[i]) && !s.threads[i].stage.Built?
    requires !s.threads[i].stage.Start? && !s.threads[i].stage.Constructed?
    ensures Covered(Step(s, i, ok))
  {
    var t := Step(s, i, ok);
    assert t.threads == s.threads[i := t.threads[i]] && t.proxy == s.proxy;
    assert t.built == s.built && !t.threads[i].stage.Built?;
    if j :| 0 <= j < |s.threads| && WillBuild(s.threads[j]) {
      assert WillBuild(t.threads[j]);
    } else if j :| 0 <= j < |s.threads| && s.threads[j].stage == Built(s.proxy) {
      assert t.threads[j] == s.threads[j];
    }
  }

  lemma BuildingCovers(s: State, i: nat, ok: bool)
    requires i < |s.threads|
    ensures WillBuild(Step(s, i, ok).threads[i]) ==> Covered(Step(s, i, ok))
    ensures s.threads[i].stage.MuHeld? && s.published ==> Covered(Step(s, i, ok))
  {
  }

  lemma StepKeepsCovered(s: State, i: nat, ok: bool)
    requires Covered(s) && Versions(s) && Locks(s) && i < |s.threads|
    ensures Covered(Step(s, i, ok))
  {
    var stage := s.threads[i].stage;
    BuildingCovers(s, i, ok);
    if stage.Built? {
      SequencingKeepsCovered(s, i, ok);
    } else if WillBuild(s.threads[i]) || stage.Start? || stage.Constructed? {
      assert ThreadInv(s, s.threads[i]);
      StartKeepsCovered(s, i, ok);
    } else if s.published {
      OtherStepKeepsCovered(s, i, ok);
    }
  }

  /** The first steps of a call either leave it about to build, or end it before anything was published. */
  lemma StartKeepsCovered(s: State, i: nat, ok: bool)
    requires Covered(s) && i < |s.threads| && ThreadInv(s, s.threads[i])
    requires WillBuild(s.threads[i]) || s.threads[i].stage.Start? || s.threads[i].stage.Constructed?
    ensures Covered(Step(s, i, ok))
  {
    BuildingCovers(s, i, ok);
  }

  lemma NextKeepsInv(s: State, a: Action)
    requires Inv(s)
    ensures Inv(Next(s, a))
  {
    if a.i < |s.threads| {
      StepKeepsLocks(s, a.i, a.ok);
      StepKeepsOneRestore(s, a.i, a.ok);
      StepKeepsVersions(s, a.i, a.ok);
      StepKeepsLastWillInstall(s, a.i, a.ok);
      StepKeepsCovered(s, a.i, a.ok);
    }
  }

  lemma {:induction false} RunKeepsInv(s: State, actions: seq<Action>)
    requires Init(s)
    ensures Inv(Run(s, actions))
    decreases |actions|
  {
    if actions == [] {
      InitInv(s);
    } else {
      RunKeepsInv(s, actions[..|actions| - 1]);
      NextKeepsInv(Run(s, actions[..|actions| - 1]), actions[|actions| - 1]);
    }
  }

  lemma {:induction false} RunKeepsThreads(s: State, actions: seq<Action>)
    ensures |Run(s, actions).threads| == |s.threads|
    decreases |actions|
  {
    if actions != [] {
      RunKeepsThreads(s, actions[..|actions| - 1]);
    }
  }

  // ------------------------------------------------------------------------------------------------
  // Results, for any number of saves racing the restore
  // ------------------------------------------------------------------------------------------------

  predicate AllDone(s: State) {
    forall i | 0 <= i < |s.threads| :: Finished(s.threads[i].stage)
  }

  predicate Finished(stage: Stage) {
    stage.Done? || stage.Unavailable?
  }

  /** The restore has put its manager in place. */
  predicate HasPublished(t: Thread) {
    t.kind.Restore? && !t.stage.Start? && !t.stage.Constructed? && !t.stage.Unavailable?
  }

  /** How many saves have written their settings. */
  function Saves(threads: seq<Thread>): nat {
    if threads == [] then 0
    else Saves(threads[1..]) + if threads[0].kind.Save? && !threads[0].stage.Start? then 1 else 0
  }

  lemma {:induction false} SavesUpdate(threads: seq<Thread>, i: nat, t: Thread)
    requires i < |threads|
    ensures Saves(threads[i := t]) - Saves([t]) == Saves(threads) - Saves([threads[i]])
    decreases i
  {
    if i > 0 {
      SavesUpdate(threads[1..], i - 1, t);
      assert threads[i := t][1..] == threads[1..][i - 1 := t];
    } else {
      assert threads[i := t][1..] == threads[1..];
    }
  }

  /** The settings have moved once for every save that wrote, and a manager is published once the restore did. */
  ghost predicate Accounted(s: State, first: nat) {
    && s.proxy == first + Saves(s.threads)
    && (s.published <==> exists i :: 0 <= i < |s.threads| && HasPublished(s.threads[i]))
    && (forall i | 0 <= i < |s.threads| && s.threads[i].kind.Save? ::
          !s.threads[i].stage.Constructed? && !s.threads[i].stage.Published? && !s.threads[i].stage.Unavailable?)
    && (forall i | 0 <= i < |s.threads| && s.threads[i].kind.Restore? :: !s.threads[i].stage.Written?)
  }

  /** What a step of thread i does to what Accounted speaks of. */
  predicate Shape(s: State, t: State, i: nat)
    requires i < |s.threads| == |t.threads|
  {
    var u, v := s.threads[i], t.threads[i];
    && t.threads == s.threads[i := v] && v.kind == u.kind && !v.stage.Start?
    && t.proxy == s.proxy + (if u.stage.Start? && u.kind.Save? then 1 else 0)
    && t.published == (s.published || u.stage.Constructed?)
    && (v.stage.Written? ==> u.stage.Start? && u.kind.Save?)
    && (v.stage.Constructed? || v.stage.Unavailable? ==> u.stage.Start? && u.kind.Restore?)
    && (v.stage.Published? <==> u.stage.Constructed?) && (u.stage.Start? && u.kind.Restore? ==> !HasPublished(v))
  }

  lemma EarlyShape(s: State, i: nat, ok: bool)
    requires i < |s.threads| && Step(s, i, ok) != s && Early(s.threads[i].stage)
    ensures Shape(s, Step(s, i, ok), i)
  {
  }

  lemma LateShape(s: State, i: nat, ok: bool)
    requires i < |s.threads| && Step(s, i, ok) != s && !Early(s.threads[i].stage)
    ensures Shape(s, Step(s, i, ok), i)
  {
  }

  lemma StepKeepsAccounted(s: State, i: nat, ok: bool, first: nat)
    requires Accounted(s, first) && i < |s.threads|
    ensures Accounted(Step(s, i, ok), first)
  {
    var t := Step(s, i, ok);
    if t != s {
      if Early(s.threads[i].stage) {
        EarlyShape(s, i, ok);
      } else {
        LateShape(s, i, ok);
      }
      SavesUpdate(s.threads, i, t.threads[i]);
      assert Saves([s.threads[i]][1..]) == 0 && Saves([t.threads[i]][1..]) == 0;
      StepPublishes(s, t, i);
    }
  }

  lemma StepPublishes(s: State, t: State, i: nat)
    requires i < |s.threads| == |t.threads| && t.threads == s.threads[i := t.threads[i]]
    requires s.published <==> exists j :: 0 <= j < |s.threads| && HasPublished(s.threads[j])
    requires HasPublished(s.threads[i]) ==> HasPublished(t.threads[i])
    requires t.published <==> s.published || HasPublished(t.threads[i])
    ensures t.published <==> exists j :: 0 <= j < |t.threads| && HasPublished(t.threads[j])
  {
    if j :| 0 <= j < |s.threads| && HasPublished(s.threads[j]) {
      assert HasPublished(t.threads[j]);
    }
    if j :| 0 <= j < |t.threads| && HasPublished(t.threads[j]) {
      assert j != i ==> HasPublished(s.threads[j]);
    }
  }

  lemma {:induction false} NobodySavedYet(threads: seq<Thread>)
    requires forall i | 0 <= i < |threads| :: threads[i].stage.Start?
    ensures Saves(threads) == 0
  {
    if threads != [] {
      NobodySavedYet(threads[1..]);
    }
  }

  /** So it is at every moment of every run. */
  lemma {:induction false} SavesAndRestoresTakeEffect(s: State, actions: seq<Action>)
    requires Init(s)
    ensures Accounted(Run(s, actions), s.proxy)
    decreases |actions|
  {
    if actions == [] {
      NobodySavedYet(s.threads);
    } else {
      var front, last := actions[..|actions| - 1], actions[|actions| - 1];
      SavesAndRestoresTakeEffect(s, front);
      if last.i < |Run(s, front).threads| {
        StepKeepsAccounted(Run(s, front), last.i, last.ok, s.proxy);
      }
    }
  }

  /**
   * Once every push has finished, the manager's client is the one built from the current proxy settings, also when
   * saves raced the manager's first publication.
   */
  lemma FinishedPushesInSync(s: State, actions: seq<Action>)
    requires Init(s)
    ensures var t := Run(s, actions);
            AllDone(t) && t.published ==> t.client == t.proxy && t.installedSeq == t.pushSeq
  {
    RunKeepsInv(s, actions);
  }

  /** One step never takes the installed sequence number or a published client back. */
  lemma StepNeverGoesBack(s: State, a: Action)
    requires Inv(s)
    ensures NotAhead(s, Next(s, a))
  {
    if a.i < |s.threads| {
      assert ThreadInv(s, s.threads[a.i]);
    }
  }

  /** The earlier state's installed sequence number and client are not ahead of the later one's. */
  predicate NotAhead(s: State, t: State) {
    s.installedSeq <= t.installedSeq && (s.published ==> t.published && s.client <= t.client)
  }

  lemma NextRun(s: State, actions: seq<Action>, a: Action)
    ensures Run(s, actions + [a]) == Next(Run(s, actions), a)
  {
    assert (actions + [a])[..|actions + [a]| - 1] == actions;
  }

  /** So an older push that was preempted cannot revert a newer client, however long it sleeps. */
  lemma {:induction false} ClientNeverGoesBack(s: State, earlier: seq<Action>, later: seq<Action>)
    requires Init(s)
    ensures NotAhead(Run(s, earlier), Run(s, earlier + later))
    decreases |later|
  {
    if later == [] {
      assert earlier + later == earlier;
    } else {
      var shorter, a := later[..|later| - 1], later[|later| - 1];
      ClientNeverGoesBack(s, earlier, shorter);
      assert earlier + later == earlier + shorter + [a];
      NextRun(s, earlier + shorter, a);
      RunKeepsInv(s, earlier + shorter);
      StepNeverGoesBack(Run(s, earlier + shorter), a);
    }
  }

  lemma UnblockedMoves(s: State, i: nat)
    requires i < |s.threads| && !Finished(s.threads[i].stage)
    requires s.mu.None? || HoldsMu(s.threads[i]) || HoldsPushMu(s.threads[i])
    requires s.pushMu.None? || HoldsPushMu(s.threads[i])
    ensures Next(s, Action(i, true)).threads[i].stage != s.threads[i].stage
  {
  }

  /** While a thread is unfinished, some thread can move: mu and pushMu are never waited for in a circle. */
  lemma NoDeadlock(s: State, actions: seq<Action>)
    requires Init(s) && !AllDone(Run(s, actions))
    ensures var t := Run(s, actions); exists a :: Next(t, a) != t
  {
    RunKeepsInv(s, actions);
    var t := Run(s, actions);
    var i :| 0 <= i < |t.threads| && !Finished(t.threads[i].stage);
    var mover := if t.pushMu.Some? then t.pushMu.value else if t.mu.Some? then t.mu.value else i;
    assert t.pushMu.Some? ==> HoldsPushMu(t.threads[mover]);
    assert t.pushMu.None? && t.mu.Some? ==> HoldsMu(t.threads[mover]);
    UnblockedMoves(t, mover);
  }

  function StepsLeft(stage: Stage): nat {
    match stage
    case Start => 9
    case Written => 8
    case Constructed(_) => 8
    case Published => 7
    case MuHeld => 6
    case Built(_) => 5
    case Sequenced(_, _) => 4
    case Installing(_, _) => 3
    case Installed => 2
    case MuHeldAgain => 1
    case Done => 0
    case Unavailable => 0
  }

  function TotalSteps(threads: seq<Thread>): nat {
    if threads == [] then 0 else StepsLeft(threads[0].stage) + TotalSteps(threads[1..])
  }

  lemma {:induction false} UpdateLowersTotal(threads: seq<Thread>, i: nat, t: Thread)
    requires i < |threads| && StepsLeft(t.stage) < StepsLeft(threads[i].stage)
    ensures TotalSteps(threads[i := t]) < TotalSteps(threads)
    decreases i
  {
    if i > 0 {
      UpdateLowersTotal(threads[1..], i - 1, t);
      assert threads[i := t][1..] == threads[1..][i - 1 := t];
    } else {
      assert threads[i := t][1..] == threads[1..];
    }
  }

  lemma EarlyStepShortens(s: State, i: nat, ok: bool)
    requires i < |s.threads| && Step(s, i, ok) != s && Early(s.threads[i].stage)
    ensures Step(s, i, ok).threads == s.threads[i := Step(s, i, ok).threads[i]]
    ensures StepsLeft(Step(s, i, ok).threads[i].stage) < StepsLeft(s.threads[i].stage)
  {
  }

  lemma LateStepShortens(s: State, i: nat, ok: bool)
    requires i < |s.threads| && Step(s, i, ok) != s && !Early(s.threads[i].stage)
    ensures Step(s, i, ok).threads == s.threads[i := Step(s, i, ok).threads[i]]
    ensures StepsLeft(Step(s, i, ok).threads[i].stage) < StepsLeft(s.threads[i].stage)
  {
  }

  /** Every move brings the run closer to its end, so with NoDeadlock every push finishes. */
  lemma MovesMakeProgress(s: State, a: Action)
    requires Next(s, a) != s
    ensures TotalSteps(Next(s, a).threads) < TotalSteps(s.threads)
  {
    if Early(s.threads[a.i].stage) {
      EarlyStepShortens(s, a.i, a.ok);
    } else {
      LateStepShortens(s, a.i, a.ok);
    }
    UpdateLowersTotal(s.threads, a.i, Next(s, a).threads[a.i]);
  }

  // ------------------------------------------------------------------------------------------------
  // The settings a save stores
  // ------------------------------------------------------------------------------------------------

  /** A request leaves the bypass list unset to keep the stored one. */
  datatype ProxySettings = ProxySettings(enabled: bool, url: string, bypass: seq<string>, tlsCertDir: string)

  datatype ProxySettingsRequest = ProxySettingsRequest(
    enabled: bool,
    url: string,
    bypass: Option<seq<string>>,
    tlsCertDir: string)

  /** What GetConfig shows: the URL with its password masked. `mask` stands for proxy.MaskURL. */
  function Shown(p: ProxySettings, mask: string -> string): ProxySettingsRequest {
    ProxySettingsRequest(p.enabled, mask(p.url), Some(p.bypass), p.tlsCertDir)
  }

  function Merged(p: ProxySettings, req: ProxySettingsRequest, mask: string -> string): ProxySettings {
    ProxySettings(
      req.enabled,
      if req.url != mask(p.url) then req.url else p.url,
      if req.bypass.Some? then req.bypass.value else p.bypass,
      req.tlsCertDir)
  }

  /** Saving the form as it is shown now keeps everything; an edit of another field keeps the URL. */
  lemma SavingWhatIsShownKeepsTheURL(p: ProxySettings, edited: ProxySettingsRequest, mask: string -> string)
    requires edited.url == Shown(p, mask).url
    ensures Merged(p, Shown(p, mask), mask) == p
    ensures Merged(p, edited, mask).url == p.url
  {
  }

  /**
   * One save of a run of saves. With `shownAt`, the URL field still holds what was shown after that many saves,
   * however long ago; without, it was typed.
   */
  datatype Submission = Submission(form: ProxySettingsRequest, shownAt: Option<nat>)

  /** What the URL field of a form shown after `k` saves holds, or the one before the save if that was later. */
  function ShownURL(p: ProxySettings, subs: seq<Submission>, k: nat, mask: string -> string): string
    decreases |subs|, 1
  {
    mask(Settings(p, subs[..if k < |subs| then k else |subs|], mask).url)
  }

  function Settings(p: ProxySettings, subs: seq<Submission>, mask: string -> string): ProxySettings
    decreases |subs|, 0
  {
    if subs == [] then p
    else
      var front, last := subs[..|subs| - 1], subs[|subs| - 1];
      var req := if last.shownAt.None? then last.form
                 else last.form.(url := ShownURL(p, front, last.shownAt.value, mask));
      Merged(Settings(p, front, mask), req, mask)
  }

  /** The stored settings after `n` saves. */
  function After(p: ProxySettings, subs: seq<Submission>, n: nat, mask: string -> string): ProxySettings
    requires n <= |subs|
  {
    Settings(p, subs[..n], mask)
  }

  /** The first URL, or one somebody typed in the first `n` saves. */
  ghost predicate Given(p: ProxySettings, subs: seq<Submission>, n: nat, url: string)
    requires n <= |subs|
  {
    url == p.url || exists j :: 0 <= j < n && subs[j].shownAt.None? && subs[j].form.url == url
  }

  lemma SaveStores(p: ProxySettings, subs: seq<Submission>, n: nat, mask: string -> string)
    requires n < |subs|
    ensures var was, next := After(p, subs, n, mask).url, After(p, subs, n + 1, mask).url;
            var sent := if subs[n].shownAt.None? then subs[n].form.url
                        else ShownURL(p, subs[..n], subs[n].shownAt.value, mask);
            next == if sent != mask(was) then sent else was
  {
    assert subs[..n + 1][..n] == subs[..n];
  }

  /** No save has put a masked URL in the place of one that was given. */
  ghost predicate OnlyGivenStored(p: ProxySettings, subs: seq<Submission>, mask: string -> string) {
    forall n | 0 <= n <= |subs| :: Given(p, subs, n, After(p, subs, n, mask).url)
  }

  /** The untouched URL field of the save after `n` others shows the stored URL's mask, or something given itself. */
  ghost predicate FormFits(p: ProxySettings, subs: seq<Submission>, n: nat, mask: string -> string)
    requires n < |subs|
  {
    subs[n].shownAt.Some? ==>
      var shown := ShownURL(p, subs[..n], subs[n].shownAt.value, mask);
      shown == mask(After(p, subs, n, mask).url) || Given(p, subs, n, shown)
  }

  lemma GivenStays(p: ProxySettings, subs: seq<Submission>, n: nat, url: string)
    requires n < |subs|
    ensures Given(p, subs, n + 1, url) <==>
            Given(p, subs, n, url) || (subs[n].shownAt.None? && subs[n].form.url == url)
  {
  }

  lemma {:induction false} FittingFormsStoreGiven(p: ProxySettings, subs: seq<Submission>, n: nat, mask: string -> string)
    requires n <= |subs| && forall k | 0 <= k < n :: FormFits(p, subs, k, mask)
    ensures Given(p, subs, n, After(p, subs, n, mask).url)
    decreases n
  {
    if n == 0 {
      assert subs[..0] == [];
    } else {
      FittingFormsStoreGiven(p, subs, n - 1, mask);
      assert FormFits(p, subs, n - 1, mask);
      SaveStores(p, subs, n - 1, mask);
      GivenStays(p, subs, n - 1, After(p, subs, n, mask).url);
    }
  }

  /**
   * Exactly when a mask becomes the stored URL, over any run of saves from forms of any age: only given URLs are
   * ever stored if and only if every untouched URL field masks the URL stored at that moment, or holds no mask.
   */
  lemma OnlyGivenStoredExactlyWhenFormsFit(p: ProxySettings, subs: seq<Submission>, mask: string -> string)
    ensures OnlyGivenStored(p, subs, mask) <==> forall n | 0 <= n < |subs| :: FormFits(p, subs, n, mask)
  {
    if OnlyGivenStored(p, subs, mask) {
      forall n | 0 <= n < |subs| ensures FormFits(p, subs, n, mask) {
        SaveStores(p, subs, n, mask);
        GivenStays(p, subs, n, After(p, subs, n + 1, mask).url);
      }
    }
    if forall n | 0 <= n < |subs| :: FormFits(p, subs, n, mask) {
      forall n | 0 <= n <= |subs| ensures Given(p, subs, n, After(p, subs, n, mask).url) {
        FittingFormsStoreGiven(p, subs, n, mask);
      }
    }
  }

  /** It happens: a form shown before another URL was saved stores its masked password. */
  lemma StaleFormStoresTheMask(p: ProxySettings, form: ProxySettingsRequest, mask: string -> string)
    requires mask(form.url) != mask(p.url) && form.url != mask(p.url) && mask(p.url) != p.url
    ensures var subs := [Submission(form, None), Submission(form, Some(0))];
            After(p, subs, 2, mask).url == mask(p.url) && !OnlyGivenStored(p, subs, mask)
  {
    var subs := [Submission(form, None), Submission(form, Some(0))];
    assert subs[..0] == [] && subs[..1][..0] == [];
    SaveStores(p, subs, 0, mask);
    SaveStores(p, subs, 1, mask);
    assert !Given(p, subs, 2, mask(p.url));
  }

  // ------------------------------------------------------------------------------------------------
  // What is left installed
  // ------------------------------------------------------------------------------------------------

  /** A client is identified by the settings it was built from. */
  datatype Installation = Installation(number: nat, client: ProxySettings)

  /** The manager takes a client only with a number above the installed one. */
  function Offered(installed: Installation, offer: Installation): Installation {
    if offer.number > installed.number then offer else installed
  }

  function AllOffered(installed: Installation, offers: seq<Installation>): Installation
    decreases |offers|
  {
    if offers == [] then installed else Offered(AllOffered(installed, offers[..|offers| - 1]), offers[|offers| - 1])
  }

  /** A number is drawn for one client. */
  ghost predicate OneClientPerNumber(offers: seq<Installation>) {
    forall a, b | a in offers && b in offers && a.number == b.number :: a == b
  }

  lemma {:induction false} NewestStaysInstalled(installed: Installation, offers: seq<Installation>)
    ensures var last := AllOffered(installed, offers);
            && (last == installed || (last in offers && last.number > installed.number))
            && (forall o | o in offers :: o.number <= last.number)
    decreases |offers|
  {
    if offers != [] {
      var front := offers[..|offers| - 1];
      NewestStaysInstalled(installed, front);
      assert offers == front + [offers[|offers| - 1]];
    }
  }

  /** However the pushes are ordered, the client with the highest number drawn is left installed. */
  lemma PushOrderDoesNotMatter(installed: Installation, offers: seq<Installation>, others: seq<Installation>)
    requires OneClientPerNumber(offers) && forall o :: o in offers <==> o in others
    ensures AllOffered(installed, offers) == AllOffered(installed, others)
    ensures forall o | o in offers && o.number > installed.number && (forall q | q in offers :: q.number <= o.number) ::
              AllOffered(installed, offers) == o
  {
    NewestStaysInstalled(installed, offers);
    NewestStaysInstalled(installed, others);
    var a, b := AllOffered(installed, offers), AllOffered(installed, others);
    assert b in others ==> b in offers;
    assert a in offers ==> a in others;
  }

  // ------------------------------------------------------------------------------------------------
  // The calls as the backend makes them, with nothing else running
  // ------------------------------------------------------------------------------------------------

  datatype SaveError = NotInitialized | RebuildFailed

  class FrontendAPI {
    var loaded: bool
    var proxy: ProxySettings
    var manager: Option<ProxySettings>
    var pushSeq: nat
    var pushInstalledSeq: nat

    predicate Valid()
      reads this
    {
      pushInstalledSeq <= pushSeq
    }

    constructor (proxy: ProxySettings)
      ensures Valid() && loaded && this.proxy == proxy && manager.None? && pushSeq == 0
    {
      loaded, this.proxy, manager, pushSeq, pushInstalledSeq := true, proxy, None, 0, 0;
    }

    /** The section under pushMu, which other pushes may separate from the drawing of `seqNo`. */
    method InstallHTTPClient(seqNo: nat, client: ProxySettings)
      requires manager.Some?
      modifies this`manager, this`pushInstalledSeq
      ensures manager.Some?
      ensures Installation(pushInstalledSeq, manager.value) ==
              Offered(Installation(old(pushInstalledSeq), old(manager).value), Installation(seqNo, client))
    {
      if seqNo > pushInstalledSeq {
        pushInstalledSeq := seqNo;
        manager := Some(client);
      }
    }

    method PushChatGPTManagerProxyClientLocked()
      requires Valid()
      modifies this`manager, this`pushSeq, this`pushInstalledSeq
      ensures Valid()
      ensures manager == if old(manager).Some? then Some(proxy) else None
      ensures pushSeq == old(pushSeq) + if old(manager).Some? then 1 else 0
      ensures old(manager).Some? ==> pushInstalledSeq == pushSeq
    {
      if manager.None? {
        return;
      }
      var client := proxy;
      pushSeq := pushSeq + 1;
      InstallHTTPClient(pushSeq, client);
    }

    /** The manager is published with the client it was constructed with, then pushed to. */
    method InitChatGPTAuth(constructed: ProxySettings)
      requires Valid() && manager.None?
      modifies this`manager, this`pushSeq, this`pushInstalledSeq
      ensures Valid() && manager == Some(proxy)
    {
      manager := Some(constructed);
      PushChatGPTManagerProxyClientLocked();
    }

    /** A failed rebuild is reported, but the settings and the manager's client have moved all the same. */
    method UpdateProxySettings(req: ProxySettingsRequest, mask: string -> string, rebuildOk: bool)
      returns (r: Result<(), SaveError>)
      requires Valid()
      modifies this`proxy, this`manager, this`pushSeq, this`pushInstalledSeq
      ensures Valid()
      ensures r == if !loaded then Err(NotInitialized) else if !rebuildOk then Err(RebuildFailed) else Ok(())
      ensures proxy == if loaded then Merged(old(proxy), req, mask) else old(proxy)
      ensures loaded ==>
        && proxy.enabled == req.enabled && proxy.tlsCertDir == req.tlsCertDir
        && proxy.bypass == (if req.bypass.Some? then req.bypass.value else old(proxy).bypass)
        && proxy.url == if req.url == mask(old(proxy).url) then old(proxy).url else req.url
      ensures loaded ==> manager == if old(manager).Some? then Some(proxy) else None
      ensures !loaded ==> manager == old(manager)
    {
      if !loaded {
        return Err(NotInitialized);
      }
      var p := proxy.(enabled := req.enabled);
      if req.url != mask(p.url) {
        p := p.(url := req.url);
      }
      if req.bypass.Some? {
        p := p.(bypass := req.bypass.value);
      }
      proxy := p.(tlsCertDir := req.tlsCertDir);
      PushChatGPTManagerProxyClientLocked();
      r := if rebuildOk then Ok(()) else Err(RebuildFailed);
    }
  }
}
