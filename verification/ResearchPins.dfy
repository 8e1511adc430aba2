/**
 * Pin and delete calls on one project's row. Each call resolves the effective research root, takes that root's
 * mutex, loads the row again, checks that the root is still effective, and saves the whole row with only its own
 * pin edit applied; renames and activity stamps write their column without the mutex.
 */
module ResearchPins {
  import opened Wrappers
  import opened PinLists
  import Text

  datatype Row = Row(name: string, lastActive: nat, pins: Pins)

  datatype Op = SetResearch(pinned: bool) | SetHypothesis(hid: string, pinned: bool) | SetPaper(pinned: bool) | DeleteResearch

  /** The edit a call comes to once its ids are resolved; `gone` is the stored paths that refer to the paper. */
  datatype Delta =
    | Brief(dir: string, pinned: bool)
    | Card(hid: string, dir: string, pinned: bool)
    | PaperPin(path: string)
    | PaperUnpin(gone: set<string>)
    | DirDrop(dir: string)

  function BriefPath(dir: string): string {
    dir + "/brief.md"
  }

  function CardPath(dir: string, hid: string): string {
    dir + "/hypotheses/" + hid + ".md"
  }

  function In(paths: set<string>): string -> bool {
    p => p in paths
  }

  function Applied(pins: Pins, delta: Delta): Pins {
    match delta
    case Brief(dir, pinned) => pins.(research := Toggled(pins.research, BriefPath(dir), pinned))
    case Card(hid, dir, pinned) =>
      var next := Toggled(CardsOf(pins, hid), CardPath(dir, hid), pinned);
      if next == CardsOf(pins, hid) then pins
      else if next == [] then pins.(hypotheses := pins.hypotheses - {hid})
      else pins.(hypotheses := pins.hypotheses[hid := next])
    case PaperPin(path) => pins.(papers := Toggled(pins.papers, path, true))
    case PaperUnpin(gone) => pins.(papers := Without(pins.papers, In(gone)))
    case DirDrop(dir) => if PinsUnder(pins, dir) then RemovedUnder(pins, dir) else pins
  }

  datatype Outcome = Committed | RootChanged | Refused | SaveFailed

  datatype Stage =
    | Start
    | Rooted(root: string)
    | Locked(root: string)
    | Loaded(root: string, row: Row)
    | Checked(root: string, row: Row)
    | Decided(root: string, row: Row, delta: Delta)
    | Done(outcome: Outcome)

  datatype Thread = Thread(op: Op, stage: Stage)

  /**
   * `root` is the effective research root and `dirs` the research project directories under each root. `log` is the
   * committed edits in commit order, with the call that made each; `deleted` is the directories removed by a
   * committed deletion since the root last changed and not made again; `renamed` is the last name given.
   */
  datatype State = State(
    row: Row,
    root: string,
    dirs: map<string, set<string>>,
    mutexes: map<string, nat>,
    threads: seq<Thread>,
    log: seq<(nat, Delta)>,
    deleted: set<string>,
    renamed: string)

  function DirsOf(s: State, root: string): set<string> {
    if root in s.dirs then s.dirs[root] else {}
  }

  /** A research project directory is one name under its root. */
  ghost predicate PlainDirs(s: State) {
    forall root, d | root in s.dirs && d in s.dirs[root] :: '/' !in d
  }

  ghost predicate Init(s: State) {
    && s.mutexes == map[] && s.log == [] && s.deleted == {} && s.renamed == s.row.name && PlainDirs(s)
    && (forall i | 0 <= i < |s.threads| :: s.threads[i].stage.Start?)
  }

  function Goto(s: State, i: nat, stage: Stage): State
    requires i < |s.threads|
  {
    s.(threads := s.threads[i := s.threads[i].(stage := stage)])
  }

  function Leave(s: State, i: nat, root: string, outcome: Outcome): State
    requires i < |s.threads|
  {
    Goto(s.(mutexes := s.mutexes - {root}), i, Done(outcome))
  }

  /** `ok` is whether the file checks and the store succeed; the ids resolve to `dir`, `path` and `gone`. */
  datatype Choice = Choice(ok: bool, dir: string, path: string, gone: set<string>)

  function Resolved(op: Op, dirs: set<string>, c: Choice): Option<Delta> {
    match op
    case SetResearch(pinned) => if c.dir in dirs then Some(Brief(c.dir, pinned)) else None
    case SetHypothesis(hid, pinned) =>
      // Pinning needs the card file, unpinning only the directory.
      if c.dir in dirs && (pinned ==> c.ok) then Some(Card(hid, c.dir, pinned)) else None
    case SetPaper(pinned) => if pinned then (if c.ok then Some(PaperPin(c.path)) else None) else Some(PaperUnpin(c.gone))
    case DeleteResearch => if c.dir in dirs && c.ok then Some(DirDrop(c.dir)) else None
  }

  function WithoutDir(s: State, root: string, dir: string): State {
    s.(dirs := s.dirs[root := DirsOf(s, root) - {dir}])
  }

  /** Saving the loaded row with the edit applied: the whole row, unless the edit changes nothing. */
  function Commit(s: State, i: nat, row: Row, delta: Delta): State {
    var next := Applied(row.pins, delta);
    s.(row := if next == row.pins then s.row else row.(pins := next),
       log := s.log + [(i, delta)],
       deleted := if delta.DirDrop? && delta.dir !in DirsOf(s, s.root) then s.deleted + {delta.dir} else s.deleted)
  }

  function Step(s: State, i: nat, c: Choice): State
    requires i < |s.threads|
  {
    var t := s.threads[i];
    match t.stage
    case Start => Goto(s, i, Rooted(s.root))
    case Rooted(root) => if root in s.mutexes then s else Goto(s.(mutexes := s.mutexes[root := i]), i, Locked(root))
    case Locked(root) => Goto(s, i, Loaded(root, s.row))
    case Loaded(root, row) => if s.root != root then Leave(s, i, root, RootChanged) else Goto(s, i, Checked(root, row))
    case Checked(root, row) =>
      var delta := Resolved(t.op, DirsOf(s, root), c);
      if delta.None? then Leave(s, i, root, Refused)
      else
        Goto(if delta.value.DirDrop? then WithoutDir(s, root, delta.value.dir) else s, i, Decided(root, row, delta.value))
    case Decided(root, row, delta) =>
      if Applied(row.pins, delta) != row.pins && !c.ok then Leave(s, i, root, SaveFailed)
      else Leave(Commit(s, i, row, delta), i, root, Committed)
    case Done(_) => s
  }

  datatype Action =
    | Move(i: nat, choice: Choice)
    | Rename(name: string)
    | Touch(time: nat)
    | FollowSession(root: string)
    | MakeDir(root: string, dir: string)
    | LoseDir(root: string, dir: string)

  function Next(s: State, a: Action): (t: State)
    ensures |t.threads| == |s.threads|
  {
    match a
    case Move(i, c) => if i < |s.threads| then Step(s, i, c) else s
    case Rename(name) => s.(row := s.row.(name := name), renamed := name)
    case Touch(time) => s.(row := s.row.(lastActive := time))
    case FollowSession(root) => s.(root := root, deleted := {})
    case MakeDir(root, dir) =>
      if '/' in dir then s
      else s.(dirs := s.dirs[root := DirsOf(s, root) + {dir}],
              deleted := if root == s.root then s.deleted - {dir} else s.deleted)
    case LoseDir(root, dir) => WithoutDir(s, root, dir)
  }

  function Run(s: State, actions: seq<Action>): (t: State)
    ensures |t.threads| == |s.threads|
    decreases |actions|
  {
    if actions == [] then s else Next(Run(s, actions[..|actions| - 1]), actions[|actions| - 1])
  }

  /** Between its load of the row and its save. */
  predicate InWindow(t: Thread) {
    t.stage.Loaded? || t.stage.Checked? || t.stage.Decided?
  }

  /** The effective root never changes while a call is between its load and its save. */
  ghost predicate Calm(s: State, actions: seq<Action>)
    decreases |actions|
  {
    actions == []
    || (var front, last := actions[..|actions| - 1], actions[|actions| - 1];
        Calm(s, front)
        && (last.FollowSession? ==> forall i | 0 <= i < |s.threads| :: !InWindow(Run(s, front).threads[i])))
  }

  /** The edits in order. */
  function Replay(pins: Pins, log: seq<(nat, Delta)>): Pins {
    if log == [] then pins else Applied(Replay(pins, log[..|log| - 1]), log[|log| - 1].1)
  }

  // ------------------------------------------------------------------------------------------------
  // The invariant
  // ------------------------------------------------------------------------------------------------

  predicate Holds(t: Thread, root: string) {
    (t.stage.Locked? || InWindow(t)) && t.stage.root == root
  }

  ghost predicate Locks(s: State) {
    && (forall i, root | 0 <= i < |s.threads| && Holds(s.threads[i], root) :: root in s.mutexes && s.mutexes[root] == i)
    && (forall root | root in s.mutexes :: s.mutexes[root] < |s.threads|)
  }

  predicate MatchesOp(op: Op, delta: Delta) {
    match op
    case SetResearch(pinned) => delta.Brief? && delta.pinned == pinned
    case SetHypothesis(hid, pinned) => delta.Card? && delta.hid == hid && delta.pinned == pinned
    case SetPaper(pinned) => if pinned then delta.PaperPin? else delta.PaperUnpin?
    case DeleteResearch => delta.DirDrop?
  }

  /** The edit's directory is one name, and one no committed deletion has taken away since. */
  predicate DeltaDir(s: State, delta: Delta) {
    match delta
    case Brief(dir, _) => '/' !in dir && dir !in s.deleted
    case Card(_, dir, _) => '/' !in dir && dir !in s.deleted
    case DirDrop(dir) => '/' !in dir
    case _ => true
  }

  predicate ThreadInv(s: State, t: Thread) {
    match t.stage
    case Loaded(root, row) => root == s.root ==> row.pins == s.row.pins
    case Checked(root, row) => root == s.root && row.pins == s.row.pins
    case Decided(root, row, delta) =>
      root == s.root && row.pins == s.row.pins && MatchesOp(t.op, delta) && DeltaDir(s, delta)
    case _ => true
  }

  ghost predicate Deleted(s: State) {
    && PlainDirs(s)
    && (forall d | d in s.deleted :: '/' !in d && d !in DirsOf(s, s.root) && !PinsUnder(s.row.pins, d))
  }

  ghost predicate Inv(s: State) {
    Locks(s) && Deleted(s) && forall i | 0 <= i < |s.threads| :: ThreadInv(s, s.threads[i])
  }

  // ------------------------------------------------------------------------------------------------
  // What an edit does to the pins under a directory
  // ------------------------------------------------------------------------------------------------

  /** A path's first component tells which directory it lies under. */
  lemma FirstComponent(dir: string, rest: string)
    requires '/' !in dir
    ensures Text.IndexOf(dir + ("/" + rest), '/') == |dir|
  {
    var p := dir + ("/" + rest);
    var i := Text.IndexOf(p, '/');
    forall j | |dir| < j <= |p| ensures '/' in p[..j] {
      assert p[..j][|dir|] == '/';
    }
    forall j | 0 <= j < |dir| ensures p[j] != '/' {
      assert dir[j] == p[j];
    }
  }

  lemma UnderOwnDir(dir: string, rest: string, other: string)
    requires '/' !in dir && '/' !in other
    ensures Under(dir + ("/" + rest), other) ==> dir == other
  {
    var p := dir + ("/" + rest);
    FirstComponent(dir, rest);
    if Under(p, other) {
      var tail := p[|other| + 1..];
      assert p == other + ("/" + tail);
      FirstComponent(other, tail);
      assert dir == p[..|dir|] == other;
    }
  }

  lemma BriefKeepsClear(pins: Pins, dir: string, pinned: bool, other: string)
    requires '/' !in dir && '/' !in other && dir != other && !PinsUnder(pins, other)
    ensures !PinsUnder(Applied(pins, Brief(dir, pinned)), other)
  {
    assert BriefPath(dir) == dir + ("/" + "brief.md");
    UnderOwnDir(dir, "brief.md", other);
    var next := Applied(pins, Brief(dir, pinned));
    forall p | p in next.research ensures !Under(p, other) {
      ToggledMeans(pins.research, BriefPath(dir), pinned, p);
    }
  }

  lemma CardKeepsClear(pins: Pins, hid: string, dir: string, pinned: bool, other: string)
    requires '/' !in dir && '/' !in other && dir != other && !PinsUnder(pins, other)
    ensures !PinsUnder(Applied(pins, Card(hid, dir, pinned)), other)
  {
    var path := CardPath(dir, hid);
    assert path == dir + ("/" + ("hypotheses/" + hid + ".md"));
    UnderOwnDir(dir, "hypotheses/" + hid + ".md", other);
    var next := Applied(pins, Card(hid, dir, pinned));
    forall h | h in next.hypotheses ensures !CardsUnder(next.hypotheses[h], other) {
      forall p | p in next.hypotheses[h] ensures !Under(p, other) {
        ToggledMeans(CardsOf(pins, hid), path, pinned, p);
        assert h in pins.hypotheses ==> !CardsUnder(pins.hypotheses[h], other);
      }
    }
  }

  lemma DropKeepsClear(pins: Pins, dir: string, other: string)
    requires !PinsUnder(pins, other)
    ensures !PinsUnder(Applied(pins, DirDrop(dir)), other)
  {
    var next := RemovedUnder(pins, dir);
    forall p | p in next.research ensures !Under(p, other) {
      WithoutMembers(pins.research, LiesUnder(dir), p);
    }
    forall h | h in next.hypotheses ensures !CardsUnder(next.hypotheses[h], other) {
      forall p | p in next.hypotheses[h] ensures !Under(p, other) {
        WithoutMembers(pins.hypotheses[h], LiesUnder(dir), p);
      }
    }
  }

  lemma DropClears(pins: Pins, dir: string)
    ensures !PinsUnder(Applied(pins, DirDrop(dir)), dir)
  {
    RemovedUnderMeans(pins, dir, "", "");
  }

  /** Edits leave a clear directory clear, unless they pin something in it. */
  lemma AppliedKeepsClear(pins: Pins, delta: Delta, other: string)
    requires '/' !in other && !PinsUnder(pins, other)
    requires delta.Brief? || delta.Card? ==> '/' !in delta.dir && delta.dir != other
    ensures !PinsUnder(Applied(pins, delta), other)
  {
    match delta
    case Brief(dir, pinned) => BriefKeepsClear(pins, dir, pinned, other);
    case Card(hid, dir, pinned) => CardKeepsClear(pins, hid, dir, pinned, other);
    case DirDrop(dir) => DropKeepsClear(pins, dir, other);
    case PaperPin(path) =>
      assert Applied(pins, delta).research == pins.research && Applied(pins, delta).hypotheses == pins.hypotheses;
    case PaperUnpin(gone) =>
      assert Applied(pins, delta).research == pins.research && Applied(pins, delta).hypotheses == pins.hypotheses;
  }

  // ------------------------------------------------------------------------------------------------
  // Every step keeps the invariant
  // ------------------------------------------------------------------------------------------------

  /** A call that moves without touching the row, the root or the deletions. */
  lemma MoveFrame(s: State, t: State, i: nat)
    requires Inv(s) && i < |s.threads| && |t.threads| == |s.threads|
    requires t == s.(mutexes := t.mutexes, dirs := t.dirs, threads := s.threads[i := t.threads[i]])
    requires (forall root :: DirsOf(t, root) <= DirsOf(s, root)) && PlainDirs(t) && Locks(t) && ThreadInv(s, t.threads[i])
    ensures Inv(t)
  {
    forall j | 0 <= j < |t.threads| ensures ThreadInv(t, t.threads[j]) {
      assert ThreadInv(s, s.threads[j]);
    }
  }

  lemma KeepingLock(s: State, t: State, i: nat)
    requires Locks(s) && i < |s.threads| && |t.threads| == |s.threads| && t.threads == s.threads[i := t.threads[i]]
    requires t.mutexes == s.mutexes && (s.threads[i].stage.Locked? || InWindow(s.threads[i]) || !InWindow(t.threads[i]))
    requires !t.threads[i].stage.Locked?
    requires InWindow(t.threads[i]) ==> t.threads[i].stage.root == s.threads[i].stage.root
    ensures Locks(t)
  {
    forall j, root | 0 <= j < |t.threads| && Holds(t.threads[j], root) ensures root in t.mutexes && t.mutexes[root] == j {
      assert Holds(s.threads[j], root);
    }
  }

  lemma Unlocking(s: State, i: nat, root: string, outcome: Outcome)
    requires Locks(s) && i < |s.threads| && Holds(s.threads[i], root)
    ensures Locks(Leave(s, i, root, outcome))
  {
    var t := Leave(s, i, root, outcome);
    assert s.mutexes[root] == i;
    forall j, r | 0 <= j < |t.threads| && Holds(t.threads[j], r) ensures r in t.mutexes && t.mutexes[r] == j {
      assert j != i && Holds(s.threads[j], r);
    }
  }

  lemma EnteringKeepsLocks(s: State, i: nat, c: Choice)
    requires Locks(s) && i < |s.threads| && (s.threads[i].stage.Start? || s.threads[i].stage.Rooted?)
    ensures Locks(Step(s, i, c))
  {
    var t := Step(s, i, c);
    forall j, r | 0 <= j < |t.threads| && Holds(t.threads[j], r) ensures r in t.mutexes && t.mutexes[r] == j {
      if j != i {
        assert Holds(s.threads[j], r);
      }
    }
  }

  lemma LoadingKeepsLocks(s: State, i: nat, c: Choice)
    requires Locks(s) && i < |s.threads|
    requires s.threads[i].stage.Locked? || s.threads[i].stage.Loaded? || s.threads[i].stage.Checked?
    ensures Locks(Step(s, i, c))
  {
    var t := Step(s, i, c);
    assert Holds(s.threads[i], s.threads[i].stage.root);
    if t.threads[i].stage.Done? {
      Unlocking(s, i, s.threads[i].stage.root, t.threads[i].stage.outcome);
    } else {
      KeepingLock(s, t, i);
    }
  }

  lemma CommittingKeepsLocks(s: State, i: nat, c: Choice)
    requires Locks(s) && i < |s.threads| && s.threads[i].stage.Decided?
    ensures Locks(Step(s, i, c))
  {
    var Decided(root, row, delta) := s.threads[i].stage;
    assert Holds(s.threads[i], root);
    Unlocking(s, i, root, SaveFailed);
    Unlocking(Commit(s, i, row, delta), i, root, Committed);
  }

  /** The mutexes are in order in every run, calm or not. */
  lemma NextKeepsLocks(s: State, a: Action)
    requires Locks(s)
    ensures Locks(Next(s, a))
  {
    if a.Move? && a.i < |s.threads| {
      var stage := s.threads[a.i].stage;
      if stage.Start? || stage.Rooted? {
        EnteringKeepsLocks(s, a.i, a.choice);
      } else if stage.Decided? {
        CommittingKeepsLocks(s, a.i, a.choice);
      } else if !stage.Done? {
        LoadingKeepsLocks(s, a.i, a.choice);
      }
    }
  }

  lemma {:induction false} RunKeepsLocks(s: State, actions: seq<Action>)
    requires Init(s)
    ensures Locks(Run(s, actions))
    decreases |actions|
  {
    if actions != [] {
      RunKeepsLocks(s, actions[..|actions| - 1]);
      NextKeepsLocks(Run(s, actions[..|actions| - 1]), actions[|actions| - 1]);
    }
  }

  lemma EnteringKeepsInv(s: State, i: nat, c: Choice)
    requires Inv(s) && i < |s.threads| && (s.threads[i].stage.Start? || s.threads[i].stage.Rooted?)
    ensures Inv(Step(s, i, c))
  {
    EnteringKeepsLocks(s, i, c);
    MoveFrame(s, Step(s, i, c), i);
  }

  lemma LoadingKeepsInv(s: State, i: nat, c: Choice)
    requires Inv(s) && i < |s.threads| && (s.threads[i].stage.Locked? || s.threads[i].stage.Loaded?)
    ensures Inv(Step(s, i, c))
  {
    assert ThreadInv(s, s.threads[i]);
    LoadingKeepsLocks(s, i, c);
    MoveFrame(s, Step(s, i, c), i);
  }

  lemma DecidingKeepsInv(s: State, i: nat, c: Choice)
    requires Inv(s) && i < |s.threads| && s.threads[i].stage.Checked?
    ensures Inv(Step(s, i, c))
  {
    var t := Step(s, i, c);
    assert ThreadInv(s, s.threads[i]);
    LoadingKeepsLocks(s, i, c);
    if t.threads[i].stage.Decided? {
      assert DeltaDir(s, t.threads[i].stage.delta);
    }
    MoveFrame(s, t, i);
  }

  /** Nobody else is in the window of the effective root while one call is. */
  lemma AloneInWindow(s: State, i: nat, j: nat)
    requires Locks(s) && i < |s.threads| && j < |s.threads| && i != j
    requires InWindow(s.threads[i]) && s.threads[i].stage.root == s.root
    ensures InWindow(s.threads[j]) ==> s.threads[j].stage.root != s.root
  {
    assert Holds(s.threads[i], s.root) && s.mutexes[s.root] == i;
    if InWindow(s.threads[j]) {
      assert Holds(s.threads[j], s.threads[j].stage.root) && s.mutexes[s.threads[j].stage.root] == j;
    }
  }

  lemma CommitKeepsDeleted(s: State, i: nat, row: Row, delta: Delta)
    requires Deleted(s) && row.pins == s.row.pins && DeltaDir(s, delta)
    ensures Deleted(Commit(s, i, row, delta)) && Commit(s, i, row, delta).row.pins == Applied(s.row.pins, delta)
  {
    var t := Commit(s, i, row, delta);
    assert t.row.pins == Applied(s.row.pins, delta);
    forall d | d in t.deleted ensures '/' !in d && d !in DirsOf(t, t.root) && !PinsUnder(t.row.pins, d) {
      if d in s.deleted {
        AppliedKeepsClear(s.row.pins, delta, d);
      } else {
        DropClears(s.row.pins, d);
      }
    }
  }

  lemma CommittingKeepsInv(s: State, i: nat, c: Choice)
    requires Inv(s) && i < |s.threads| && s.threads[i].stage.Decided?
    ensures Inv(Step(s, i, c))
  {
    var Decided(root, row, delta) := s.threads[i].stage;
    assert ThreadInv(s, s.threads[i]) && Holds(s.threads[i], root);
    var t := Step(s, i, c);
    CommittingKeepsLocks(s, i, c);
    if t.threads[i].stage == Done(SaveFailed) {
      MoveFrame(s, t, i);
    } else {
      CommitKeepsDeleted(s, i, row, delta);
      forall j | 0 <= j < |t.threads| ensures ThreadInv(t, t.threads[j]) {
        assert ThreadInv(s, s.threads[j]);
        if j != i {
          AloneInWindow(s, i, j);
        }
      }
    }
  }

  lemma StepKeepsInv(s: State, i: nat, c: Choice)
    requires Inv(s) && i < |s.threads|
    ensures Inv(Step(s, i, c))
  {
    var stage := s.threads[i].stage;
    if stage.Start? || stage.Rooted? {
      EnteringKeepsInv(s, i, c);
    } else if stage.Locked? || stage.Loaded? {
      LoadingKeepsInv(s, i, c);
    } else if stage.Checked? {
      DecidingKeepsInv(s, i, c);
    } else if stage.Decided? {
      CommittingKeepsInv(s, i, c);
    }
  }

  lemma WorldKeepsInv(s: State, a: Action)
    requires Inv(s) && !a.Move? && (a.FollowSession? ==> forall i | 0 <= i < |s.threads| :: !InWindow(s.threads[i]))
    ensures Inv(Next(s, a))
  {
    var t := Next(s, a);
    forall j | 0 <= j < |t.threads| ensures ThreadInv(t, t.threads[j]) {
      assert ThreadInv(s, s.threads[j]);
    }
  }

  lemma {:induction false} RunKeepsInv(s: State, actions: seq<Action>)
    requires Init(s) && Calm(s, actions)
    ensures Inv(Run(s, actions))
    decreases |actions|
  {
    if actions != [] {
      var front, last := actions[..|actions| - 1], actions[|actions| - 1];
      RunKeepsInv(s, front);
      if last.Move? {
        if last.i < |s.threads| {
          StepKeepsInv(Run(s, front), last.i, last.choice);
        }
      } else {
        WorldKeepsInv(Run(s, front), last);
      }
    }
  }

  // ------------------------------------------------------------------------------------------------
  // Results, for any calls, renames, session changes and directory changes in any interleaving
  // ------------------------------------------------------------------------------------------------

  /** This step ends a call with success: its edit changed nothing in the row it loaded, or was saved. */
  predicate Commits(s: State, a: Action) {
    && a.Move? && a.i < |s.threads| && s.threads[a.i].stage.Decided?
    && var Decided(_, row, delta) := s.threads[a.i].stage;
    Applied(row.pins, delta) == row.pins || a.choice.ok
  }

  /** This step saves a row. */
  predicate Saves(s: State, a: Action) {
    Commits(s, a) && Applied(s.threads[a.i].stage.row.pins, s.threads[a.i].stage.delta) != s.threads[a.i].stage.row.pins
  }

  /**
   * A commit does to the pins there are what it did to those it loaded: the saved pins are the current ones with
   * the edit applied, or, where nothing was saved, the edit changes nothing in the current ones either.
   */
  predicate CommitFits(s: State, a: Action) {
    Commits(s, a) ==>
      var Decided(_, row, delta) := s.threads[a.i].stage;
      Applied(s.row.pins, delta) == if Saves(s, a) then Applied(row.pins, delta) else s.row.pins
  }

  ghost predicate EveryCommitFits(s: State, actions: seq<Action>)
    decreases |actions|
  {
    actions == []
    || (EveryCommitFits(s, actions[..|actions| - 1])
        && CommitFits(Run(s, actions[..|actions| - 1]), actions[|actions| - 1]))
  }

  /** At every moment of the run the pins are the committed edits in order. */
  ghost predicate ReplayedThroughout(s: State, actions: seq<Action>)
    decreases |actions|
  {
    && Run(s, actions).row.pins == Replay(s.row.pins, Run(s, actions).log)
    && (actions == [] || ReplayedThroughout(s, actions[..|actions| - 1]))
  }

  lemma StepLogs(s: State, a: Action)
    ensures var t := Next(s, a);
            if Commits(s, a) then
              && t.log == s.log + [(a.i, s.threads[a.i].stage.delta)]
              && t.row.pins == (if Saves(s, a) then Applied(s.threads[a.i].stage.row.pins, s.threads[a.i].stage.delta)
                                else s.row.pins)
            else t.log == s.log && t.row.pins == s.row.pins
  {
  }

  lemma ReplayAppend(pins: Pins, log: seq<(nat, Delta)>, i: nat, delta: Delta)
    ensures Replay(pins, log + [(i, delta)]) == Applied(Replay(pins, log), delta)
  {
    assert (log + [(i, delta)])[..|log|] == log;
  }

  /**
   * Exactly when no update is lost, over any run: the pins are the replay of the committed edits at every moment
   * if and only if every commit fits the row it lands on.
   */
  lemma {:induction false} ReplayedExactlyWhenCommitsFit(s: State, actions: seq<Action>)
    requires Init(s)
    ensures ReplayedThroughout(s, actions) <==> EveryCommitFits(s, actions)
    decreases |actions|
  {
    if actions != [] {
      var front, last := actions[..|actions| - 1], actions[|actions| - 1];
      ReplayedExactlyWhenCommitsFit(s, front);
      var t := Run(s, front);
      StepLogs(t, last);
      if Commits(t, last) {
        ReplayAppend(s.row.pins, t.log, last.i, t.threads[last.i].stage.delta);
      }
    }
  }

  /** While no window sees the root change, every commit finds the pins it loaded. */
  lemma {:induction false} CalmCommitsFit(s: State, actions: seq<Action>)
    requires Init(s) && Calm(s, actions)
    ensures EveryCommitFits(s, actions)
    decreases |actions|
  {
    if actions != [] {
      var front, last := actions[..|actions| - 1], actions[|actions| - 1];
      CalmCommitsFit(s, front);
      RunKeepsInv(s, front);
      if Commits(Run(s, front), last) {
        assert ThreadInv(Run(s, front), Run(s, front).threads[last.i]);
      }
    }
  }

  /** So then no update is lost: the row's pins are the committed edits in the order the mutex admitted them. */
  lemma PinsAreTheReplay(s: State, actions: seq<Action>)
    requires Init(s) && Calm(s, actions)
    ensures Run(s, actions).row.pins == Replay(s.row.pins, Run(s, actions).log)
  {
    CalmCommitsFit(s, actions);
    ReplayedExactlyWhenCommitsFit(s, actions);
  }

  ghost predicate LoggedOnce(s: State) {
    && (forall k | 0 <= k < |s.log| ::
          s.log[k].0 < |s.threads| && s.threads[s.log[k].0].stage == Done(Committed)
          && MatchesOp(s.threads[s.log[k].0].op, s.log[k].1))
    && (forall j, k | 0 <= j < k < |s.log| :: s.log[j].0 != s.log[k].0)
    && (forall i | 0 <= i < |s.threads| && s.threads[i].stage == Done(Committed) ::
          exists k :: 0 <= k < |s.log| && s.log[k].0 == i)
  }

  lemma LogFrame(s: State, t: State)
    requires LoggedOnce(s) && t.log == s.log && |t.threads| == |s.threads|
    requires forall j | 0 <= j < |s.threads| ::
      t.threads[j].op == s.threads[j].op && (t.threads[j].stage == Done(Committed) <==> s.threads[j].stage == Done(Committed))
    ensures LoggedOnce(t)
  {
  }

  lemma LogGrows(s: State, t: State, i: nat, delta: Delta)
    requires LoggedOnce(s) && i < |s.threads| && |t.threads| == |s.threads|
    requires t.log == s.log + [(i, delta)] && t.threads == s.threads[i := t.threads[i]]
    requires s.threads[i].stage.Decided? && t.threads[i] == s.threads[i].(stage := Done(Committed))
    requires MatchesOp(s.threads[i].op, delta)
    ensures LoggedOnce(t)
  {
    forall k | 0 <= k < |t.log|
      ensures t.log[k].0 < |t.threads| && t.threads[t.log[k].0].stage == Done(Committed)
      ensures MatchesOp(t.threads[t.log[k].0].op, t.log[k].1) && (k < |s.log| ==> t.log[k].0 != i)
    {
      if k < |s.log| {
        assert t.log[k] == s.log[k];
      }
    }
    forall j | 0 <= j < |t.threads| && t.threads[j].stage == Done(Committed)
      ensures exists k :: 0 <= k < |t.log| && t.log[k].0 == j
    {
      if j == i {
        assert t.log[|s.log|].0 == i;
      } else {
        var k :| 0 <= k < |s.log| && s.log[k].0 == j;
        assert t.log[k] == s.log[k];
      }
    }
  }

  lemma MoveKeepsLoggedOnce(s: State, i: nat, c: Choice)
    requires LoggedOnce(s) && i < |s.threads| && ThreadInv(s, s.threads[i])
    ensures LoggedOnce(Step(s, i, c))
  {
    var t := Step(s, i, c);
    if s.threads[i].stage.Decided? && t.threads[i].stage == Done(Committed) {
      LogGrows(s, t, i, s.threads[i].stage.delta);
    } else {
      LogFrame(s, t);
    }
  }

  lemma NextKeepsLoggedOnce(s: State, a: Action)
    requires LoggedOnce(s) && Inv(s)
    ensures LoggedOnce(Next(s, a))
  {
    if !a.Move? {
      LogFrame(s, Next(s, a));
    } else if a.i < |s.threads| {
      MoveKeepsLoggedOnce(s, a.i, a.choice);
    }
  }

  /** Each call that reports success stands in that order exactly once, with the edit it was asked for; no other does. */
  lemma {:induction false} EachCommitCountsOnce(s: State, actions: seq<Action>)
    requires Init(s) && Calm(s, actions)
    ensures LoggedOnce(Run(s, actions))
    decreases |actions|
  {
    if actions != [] {
      var front := actions[..|actions| - 1];
      EachCommitCountsOnce(s, front);
      RunKeepsInv(s, front);
      NextKeepsLoggedOnce(Run(s, front), actions[|actions| - 1]);
    }
  }

  /** Once a deletion has committed, no research or hypothesis pin under its directory exists until the directory does. */
  lemma DeletedDirectoryStaysUnpinned(s: State, actions: seq<Action>, dir: string)
    requires Init(s) && Calm(s, actions)
    ensures var t := Run(s, actions); dir in t.deleted ==> dir !in DirsOf(t, t.root) && !PinsUnder(t.row.pins, dir)
  {
    RunKeepsInv(s, actions);
  }

  /**
   * A deletion takes away the pins under its directory, its own brief and cards among them, and nothing else: the
   * others keep their order and all papers stay.
   */
  lemma DeletionTouchesOnlyItsDirectory(pins: Pins, dir: string, h: string, p: string)
    ensures var next := Applied(pins, DirDrop(dir));
            && next.papers == pins.papers
            && (p in next.research <==> p in pins.research && !Under(p, dir))
            && (HasCard(next, h, p) <==> HasCard(pins, h, p) && !Under(p, dir))
            && KeptInOrder(pins.research, next.research, LiesUnder(dir))
            && KeptInOrder(CardsOf(pins, h), CardsOf(next, h), LiesUnder(dir))
            && dir + "/brief.md" !in next.research && !HasCard(next, h, dir + "/hypotheses/" + h + ".md")
  {
    RemovedUnderMeans(pins, dir, h, p);
    RemovedUnderMeans(pins, dir, h, dir + "/brief.md");
    RemovedUnderMeans(pins, dir, h, dir + "/hypotheses/" + h + ".md");
    assert dir + "/" <= dir + "/brief.md" && dir + "/" <= dir + "/hypotheses/" + h + ".md";
    if !PinsUnder(pins, dir) {
      NothingUnderStays(pins, dir, h);
    }
  }

  lemma NothingUnderStays(pins: Pins, dir: string, h: string)
    requires !PinsUnder(pins, dir)
    ensures KeptPaths(pins.research, dir) == pins.research && KeptPaths(CardsOf(pins, h), dir) == CardsOf(pins, h)
    ensures KeptInOrder(pins.research, pins.research, LiesUnder(dir))
    ensures KeptInOrder(CardsOf(pins, h), CardsOf(pins, h), LiesUnder(dir))
  {
    WithoutShrinks(pins.research, LiesUnder(dir));
    WithoutShrinks(CardsOf(pins, h), LiesUnder(dir));
    WithoutInOrder(pins.research, LiesUnder(dir));
    WithoutInOrder(CardsOf(pins, h), LiesUnder(dir));
    assert h in pins.hypotheses ==> !CardsUnder(pins.hypotheses[h], dir);
  }

  /** Pinning a brief sets that path's state in the research list, and touches no card and no paper. */
  lemma BriefEditMeans(pins: Pins, dir: string, pinned: bool, p: string)
    ensures var next := Applied(pins, Brief(dir, pinned));
            && next.hypotheses == pins.hypotheses && next.papers == pins.papers
            && (p in next.research <==> if p == dir + "/brief.md" then pinned else p in pins.research)
            && ListToggled(pins.research, next.research, dir + "/brief.md", pinned)
  {
    ToggledMeans(pins.research, dir + "/brief.md", pinned, p);
  }

  /** Pinning a card sets that card's state under that id, and no other card's; no id is left without a card. */
  lemma CardEditMeans(pins: Pins, hid: string, dir: string, pinned: bool, h: string, p: string)
    ensures var next, card := Applied(pins, Card(hid, dir, pinned)), dir + "/hypotheses/" + hid + ".md";
            && next.research == pins.research && next.papers == pins.papers
            && (HasCard(next, h, p) <==> if h == hid && p == card then pinned else HasCard(pins, h, p))
            && ListToggled(CardsOf(pins, hid), CardsOf(next, hid), card, pinned)
            && (h in next.hypotheses && next.hypotheses[h] == [] ==> h in pins.hypotheses && pins.hypotheses[h] == [])
            && (h != hid ==> CardsOf(next, h) == CardsOf(pins, h))
  {
    ToggledMeans(CardsOf(pins, hid), CardPath(dir, hid), pinned, p);
  }

  /** Pinning a paper adds its path, unpinning drops the stored paths that refer to it; neither touches the rest. */
  lemma PaperEditsMean(pins: Pins, path: string, gone: set<string>, p: string)
    ensures var next := Applied(pins, PaperPin(path));
            && next.research == pins.research && next.hypotheses == pins.hypotheses
            && next.papers == if path in pins.papers then pins.papers else pins.papers + [path]
    ensures var next := Applied(pins, PaperUnpin(gone));
            && next.research == pins.research && next.hypotheses == pins.hypotheses
            && (p in next.papers <==> p in pins.papers && p !in gone)
            && KeptInOrder(pins.papers, next.papers, In(gone))
  {
    WithoutInOrder(pins.papers, In(gone));
    WithoutMembers(pins.papers, In(gone), p);
  }

  /** What the world does beside the calls: stamps and names touch their column, directories come and go. */
  lemma WorldTakesEffect(s: State, time: nat, name: string, root: string, dir: string)
    requires '/' !in dir
    ensures Next(s, Touch(time)) == s.(row := s.row.(lastActive := time))
    ensures Next(s, Rename(name)) == s.(row := s.row.(name := name), renamed := name)
    ensures var t := Next(s, MakeDir(root, dir));
            && t.row == s.row && DirsOf(t, root) == DirsOf(s, root) + {dir}
            && (root == s.root ==> dir !in t.deleted) && (root != s.root ==> t.deleted == s.deleted)
    ensures var t := Next(s, LoseDir(root, dir)); t.row == s.row && DirsOf(t, root) == DirsOf(s, root) - {dir}
  {
  }

  // ------------------------------------------------------------------------------------------------
  // A call alone
  // ------------------------------------------------------------------------------------------------

  /** Five moves take a fresh call from its start to its decision. */
  function FiveMoves(s: State, i: nat, c: Choice): State {
    var m := Move(i, c);
    Next(Next(Next(Next(Next(s, m), m), m), m), m)
  }

  /** A call that meets no obstacle holds its root's mutex and the row it loaded when its ids are to be resolved. */
  lemma CallChecks(s: State, i: nat, c: Choice)
    requires i < |s.threads| && s.threads[i].stage.Start? && s.root !in s.mutexes
    ensures var m := Move(i, c);
            Next(Next(Next(Next(s, m), m), m), m) == Goto(s.(mutexes := s.mutexes[s.root := i]), i, Checked(s.root, s.row))
  {
    var m := Move(i, c);
    var s1 := Next(s, m);
    assert s1 == Goto(s, i, Rooted(s.root));
    var s2 := Next(s1, m);
    assert s2 == Goto(s.(mutexes := s.mutexes[s.root := i]), i, Locked(s.root));
    var s3 := Next(s2, m);
    assert s3 == Goto(s2, i, Loaded(s.root, s.row));
  }

  /** What the ids must resolve to, for each call, and the edit that is then due. */
  lemma ResolvesWhenThere(op: Op, dirs: set<string>, c: Choice)
    ensures match Resolved(op, dirs, c)
            case None => (!op.SetPaper? && c.dir !in dirs) || ((op.DeleteResearch? || op.pinned) && !op.SetResearch? && !c.ok)
            case Some(delta) =>
              && MatchesOp(op, delta) && (!op.SetPaper? ==> delta.dir == c.dir && c.dir in dirs)
              && (delta.PaperPin? ==> delta.path == c.path) && (delta.PaperUnpin? ==> delta.gone == c.gone)
              && ((op.DeleteResearch? || op.pinned) && !op.SetResearch? ==> c.ok)
  {
  }

  /** So a call that meets no obstacle commits its edit to the row as it is, lets the mutex go, and logs it once. */
  lemma CallAloneCommits(s: State, i: nat, c: Choice)
    requires i < |s.threads| && s.threads[i].stage.Start? && s.root !in s.mutexes
    requires c.ok && Resolved(s.threads[i].op, DirsOf(s, s.root), c).Some?
    ensures var t, delta := Next(FiveMoves(s, i, c), Move(i, c)), Resolved(s.threads[i].op, DirsOf(s, s.root), c).value;
            && t.threads == s.threads[i := s.threads[i].(stage := Done(Committed))] && t.mutexes == s.mutexes
            && t.row == s.row.(pins := Applied(s.row.pins, delta)) && t.log == s.log + [(i, delta)]
            && DirsOf(t, s.root) == DirsOf(s, s.root) - (if delta.DirDrop? then {delta.dir} else {})
            && (delta.DirDrop? ==> delta.dir in t.deleted)
  {
    CallChecks(s, i, c);
    var held := Goto(s.(mutexes := s.mutexes[s.root := i]), i, Checked(s.root, s.row));
    var delta := Resolved(s.threads[i].op, DirsOf(s, s.root), c).value;
    var decided := FiveMoves(s, i, c);
    assert decided.threads[i].stage == Decided(s.root, s.row, delta) && decided.row == s.row;
    assert s.mutexes[s.root := i] - {s.root} == s.mutexes;
  }

  // ------------------------------------------------------------------------------------------------
  // The calls as the backend makes them, with nothing else running
  // ------------------------------------------------------------------------------------------------

  datatype PinError = NotFound | CardMissing | SaveError

  /** One project's row and the research directories under its effective root. */
  class FrontendAPI {
    var row: Row
    var dirs: set<string>

    constructor (row: Row, dirs: set<string>)
      ensures this.row == row && this.dirs == dirs
    {
      this.row, this.dirs := row, dirs;
    }

    /** The store write; a failed one leaves the row as it was. */
    method SaveProject(next: Row, ok: bool) returns (r: Result<(), PinError>)
      modifies this`row
      ensures r == (if ok then Ok(()) else Err(SaveError)) && row == if ok then next else old(row)
    {
      if !ok {
        return Err(SaveError);
      }
      row := next;
      r := Ok(());
    }

    method SetResearchPinned(dir: string, pinned: bool, ok: bool) returns (r: Result<(), PinError>)
      modifies this`row
      ensures dir !in dirs ==> r == Err(NotFound)
      ensures dir in dirs ==> (r.Ok? <==> ok || (BriefPath(dir) in old(row).pins.research <==> pinned))
      ensures row == if r.Ok? then old(row).(pins := Applied(old(row).pins, Brief(dir, pinned))) else old(row)
      ensures row == old(row).(pins := old(row).pins.(research := row.pins.research))
      ensures r.Ok? ==> ListToggled(old(row).pins.research, row.pins.research, dir + "/brief.md", pinned)
    {
      ToggledMeans(row.pins.research, dir + "/brief.md", pinned, "");
      if dir !in dirs {
        return Err(NotFound);
      }
      var proj := row;
      var next, changed := TogglePinnedPath(proj.pins.research, BriefPath(dir), pinned);
      if !changed {
        return Ok(());
      }
      r := SaveProject(proj.(pins := proj.pins.(research := next)), ok);
    }

    method SetHypothesisPinned(dir: string, hid: string, cardExists: bool, pinned: bool, ok: bool)
      returns (r: Result<(), PinError>)
      modifies this`row
      ensures dir !in dirs ==> r == Err(NotFound)
      ensures dir in dirs && pinned && !cardExists ==> r == Err(CardMissing)
      ensures dir in dirs && (pinned ==> cardExists) ==>
        (r.Ok? <==> ok || (HasCard(old(row).pins, hid, CardPath(dir, hid)) <==> pinned))
      ensures row == if r.Ok? then old(row).(pins := Applied(old(row).pins, Card(hid, dir, pinned))) else old(row)
      ensures row == old(row).(pins := old(row).pins.(hypotheses := row.pins.hypotheses))
      ensures forall h | h != hid :: CardsOf(row.pins, h) == CardsOf(old(row).pins, h)
      ensures r.Ok? ==>
        ListToggled(CardsOf(old(row).pins, hid), CardsOf(row.pins, hid), dir + "/hypotheses/" + hid + ".md", pinned)
    {
      ToggledMeans(CardsOf(row.pins, hid), CardPath(dir, hid), pinned, "");
      if dir !in dirs {
        return Err(NotFound);
      }
      if pinned && !cardExists {
        return Err(CardMissing);
      }
      var proj := row;
      var next, changed := TogglePinnedPath(CardsOf(proj.pins, hid), CardPath(dir, hid), pinned);
      if !changed {
        return Ok(());
      }
      var hypotheses := proj.pins.hypotheses;
      if |next| == 0 {
        hypotheses := hypotheses - {hid};
      } else {
        hypotheses := hypotheses[hid := next];
      }
      r := SaveProject(proj.(pins := proj.pins.(hypotheses := hypotheses)), ok);
    }

    /** When the save fails the directory is gone and its pins are not. */
    method DeleteResearchProject(dir: string, ok: bool) returns (r: Result<(), PinError>)
      modifies this
      ensures dir !in old(dirs) ==> r == Err(NotFound) && row == old(row)
      ensures dirs == old(dirs) - {dir} && (ok && dir in old(dirs) ==> r.Ok?)
      ensures r.Ok? ==> row == old(row).(pins := Applied(old(row).pins, DirDrop(dir))) && !PinsUnder(row.pins, dir)
      ensures row.name == old(row).name && row.lastActive == old(row).lastActive && row.pins.papers == old(row).pins.papers
      ensures dir in old(dirs) && r.Err? ==> r == Err(SaveError) && row == old(row) && PinsUnder(row.pins, dir)
    {
      if dir !in dirs {
        return Err(NotFound);
      }
      var proj := row;
      dirs := dirs - {dir};
      var pins, changed := RemovePinnedUnderDir(proj.pins, dir);
      RemovedUnderMeans(proj.pins, dir, "", "");
      if changed {
        r := SaveProject(proj.(pins := pins), ok);
      } else {
        r := Ok(());
      }
    }

    method SetPaperPinned(key: string, rec: Option<Paper>, cardPath: string, cardExists: bool, pinned: bool,
                          names: Names, ok: bool)
      returns (r: Result<(), PinError>)
      modifies this`row
      ensures pinned && rec.None? ==> r == Err(NotFound)
      ensures pinned && rec.Some? && !cardExists ==> r == Err(CardMissing)
      ensures r.Ok? ==>
        row == old(row).(pins := old(row).pins.(papers :=
          if pinned then Toggled(old(row).pins.papers, cardPath, true)
          else KeptPins(old(row).pins.papers, Candidates(key, rec, names), names)))
      ensures r.Err? ==> row == old(row)
      ensures ok && (pinned ==> rec.Some? && cardExists) ==> r.Ok?
      ensures !ok && r.Ok? ==> row == old(row)
      ensures row == old(row).(pins := old(row).pins.(papers := row.pins.papers))
      ensures r.Ok? ==>
        if pinned then ListToggled(old(row).pins.papers, row.pins.papers, cardPath, true)
        else KeptInOrder(old(row).pins.papers, row.pins.papers, CleansInto(Candidates(key, rec, names), names))
    {
      var proj := row;
      WithoutInOrder(row.pins.papers, CleansInto(Candidates(key, rec, names), names));
      if !pinned {
        var next, changed := RemovePaperPin(proj.pins.papers, key, rec, names);
        if !changed {
          return Ok(());
        }
        r := SaveProject(proj.(pins := proj.pins.(papers := next)), ok);
        return;
      }
      if rec.None? {
        return Err(NotFound);
      }
      if !cardExists {
        return Err(CardMissing);
      }
      var next, changed := TogglePinnedPath(proj.pins.papers, cardPath, true);
      if !changed {
        return Ok(());
      }
      r := SaveProject(proj.(pins := proj.pins.(papers := next)), ok);
    }
  }
}
