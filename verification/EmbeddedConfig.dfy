/**
 * The configuration writes of the embedded model: installing, removing, moving its port and correcting its context
 * window. Each mutates the configuration in memory, regenerates the provider record that follows from it, and
 * restores the exact prior state when the file cannot be written. The two tables live on the heap, as Go's maps
 * do, because that restoration is by reference.
 */
module EmbeddedConfig {
  import opened Wrappers
  import TuningPatch

  const PROVIDER := "embedded"

  const MODEL := "Bonsai 2 27B"

  const COMPOSITE := "embedded/Bonsai 2 27B"

  const OUTPUT_LIMIT: int := 8192

  const MAX_CONTEXT_WINDOW: int := 16777216

  datatype Endpoint = Loopback(port: int) | Elsewhere(url: string)

  datatype Provider = Provider(
    baseURL: Endpoint,
    apiKey: string,
    models: seq<string>,
    tlsFingerprint: string,
    outputTokenReserve: int,
    autoRetrySeconds: int,
    timeoutClass: string)

  /** `rest` is the operator's other overrides of the model. */
  datatype Override = Override(contextWindow: int, outputLimit: int, rest: string)

  datatype AutoUnload = AutoUnload(enabled: Option<bool>, minutes: Option<int>)

  /** What an install records about itself. */
  datatype Record = Record(
    packing: string, backend: string, port: int, modelFile: string, runtimeVersion: string, installedAt: string,
    pythonVersion: string, packRevision: string)

  const NO_RECORD := Record("", "", 0, "", "", "", "", "")

  /** The embedded_llm section: the operator's settings and, while installed, the install's record. */
  datatype Embedded = Embedded(
    installed: bool, record: Record, engine: string, autoUnload: AutoUnload, tuning: TuningPatch.Section)

  datatype InstallState = InstallState(record: Record, autoUnloadEnabled: bool, autoUnloadMinutes: int, contextSize: int)

  // ------------------------------------------------------------------------------------------------
  // The provider record and the override that follow from the section
  // ------------------------------------------------------------------------------------------------

  function Generated(port: int, reserve: int): Provider {
    Provider(Loopback(port), "", [MODEL], "", reserve, 0, "")
  }

  /** Equal in what the backend owns. */
  predicate SameBacking(a: Provider, b: Provider) {
    && a.baseURL == b.baseURL && a.apiKey == b.apiKey && a.tlsFingerprint == b.tlsFingerprint
    && a.outputTokenReserve == b.outputTokenReserve && a.models == b.models
  }

  function SyncedProviders(m: map<string, Provider>, e: Embedded): map<string, Provider> {
    if !e.installed then m - {PROVIDER}
    else
      var want := Generated(e.record.port, if PROVIDER in m then m[PROVIDER].outputTokenReserve else 0);
      if PROVIDER in m && SameBacking(m[PROVIDER], want) then m else m[PROVIDER := want]
  }

  function OverrideOf(m: map<string, Override>): Override {
    if MODEL in m then m[MODEL] else Override(0, 0, "")
  }

  /** The seeded output limit: a quarter of a known window at most. */
  function OutputCeiling(contextWindow: int): (limit: int)
    ensures limit <= 8192 && (contextWindow > 0 ==> 0 <= 4 * limit <= contextWindow)
    ensures limit < 8192 ==> contextWindow > 0 && contextWindow < 4 * (limit + 1)
  {
    if contextWindow <= 0 || OUTPUT_LIMIT <= contextWindow / 4 then OUTPUT_LIMIT else contextWindow / 4
  }

  function WithWindow(m: map<string, Override>, contextWindow: int): map<string, Override> {
    if contextWindow <= 0 || OverrideOf(m).contextWindow == contextWindow then m
    else m[MODEL := OverrideOf(m).(contextWindow := contextWindow)]
  }

  function WithLimit(m: map<string, Override>, limit: int): map<string, Override> {
    if limit <= 0 || OverrideOf(m).outputLimit != 0 then m else m[MODEL := OverrideOf(m).(outputLimit := limit)]
  }

  function SyncedOverrides(m: map<string, Override>, contextWindow: int): map<string, Override> {
    WithLimit(WithWindow(m, contextWindow), OutputCeiling(contextWindow))
  }

  /** The provider exists exactly while installed, and then serves the one model on the persisted port, keyless. */
  predicate Reconciled(m: map<string, Provider>, e: Embedded) {
    && (PROVIDER in m <==> e.installed)
    && (e.installed ==> SameBacking(m[PROVIDER], Generated(e.record.port, m[PROVIDER].outputTokenReserve)))
  }

  /** Syncing reconciles, keeps the operator's token reserve and every other provider, and is done after once. */
  lemma SyncReconciles(m: map<string, Provider>, e: Embedded, other: string)
    ensures Reconciled(SyncedProviders(m, e), e)
    ensures "embedded" in SyncedProviders(m, e) <==> e.installed
    ensures e.installed ==>
      var p := SyncedProviders(m, e)[PROVIDER];
      p.baseURL == Loopback(e.record.port) && p.apiKey == "" && p.models == ["Bonsai 2 27B"] && p.tlsFingerprint == ""
    ensures e.installed && PROVIDER !in m ==> SyncedProviders(m, e)[PROVIDER].outputTokenReserve == 0
    ensures SyncedProviders(SyncedProviders(m, e), e) == SyncedProviders(m, e)
    ensures SyncedProviders(m, e) == m <==> Reconciled(m, e)
    ensures e.installed && PROVIDER in m ==>
      SyncedProviders(m, e)[PROVIDER].outputTokenReserve == m[PROVIDER].outputTokenReserve
    ensures other != PROVIDER ==>
      (other in SyncedProviders(m, e) <==> other in m) && (other in m ==> SyncedProviders(m, e)[other] == m[other])
  {
    if !e.installed && PROVIDER in m {
      assert PROVIDER !in SyncedProviders(m, e);
    }
  }

  /**
   * Overrides: a known window is recorded, an output limit only where there is none, nothing else and no other
   * model's. In particular a removal does not drop the model's override: it leaves one with an output limit.
   */
  lemma OverridesSync(m: map<string, Override>, contextWindow: int, other: string)
    ensures var next := SyncedOverrides(m, contextWindow);
            && (contextWindow > 0 ==> MODEL in next && next[MODEL].contextWindow == contextWindow)
            && (contextWindow <= 0 ==> MODEL in next && next[MODEL].contextWindow == OverrideOf(m).contextWindow)
            && OverrideOf(next).rest == OverrideOf(m).rest
            && (OverrideOf(m).outputLimit != 0 ==> OverrideOf(next).outputLimit == OverrideOf(m).outputLimit)
            && (OverrideOf(m).outputLimit == 0 ==> OverrideOf(next).outputLimit == OutputCeiling(contextWindow))
            && (other != MODEL ==> (other in next <==> other in m) && (other in m ==> next[other] == m[other]))
  {
  }

  // ------------------------------------------------------------------------------------------------
  // The default model a removal leaves
  // ------------------------------------------------------------------------------------------------

  /** The first enabled model that is not the embedded one; "" when there is none. */
  function FirstOther(ids: seq<string>): string {
    if ids == [] then "" else if ids[0] != COMPOSITE then ids[0] else FirstOther(ids[1..])
  }

  function Migrated(defaultModel: string, ids: seq<string>): string {
    if defaultModel == COMPOSITE then FirstOther(ids) else defaultModel
  }

  /** The check before any byte is deleted. */
  predicate GateRefuses(defaultModel: string, ids: seq<string>) {
    defaultModel == COMPOSITE && FirstOther(ids) == ""
  }

  lemma {:induction false} FirstOtherIsOther(ids: seq<string>)
    requires "" !in ids
    ensures FirstOther(ids) == "" <==> forall id | id in ids :: id == COMPOSITE
    ensures FirstOther(ids) != "" ==> FirstOther(ids) in ids && FirstOther(ids) != COMPOSITE
  {
    if ids != [] {
      FirstOtherIsOther(ids[1..]);
      assert ids[0] in ids && forall id :: id in ids <==> id == ids[0] || id in ids[1..];
    }
  }

  /** And it is the first such: whatever else comes before it is the embedded model itself. */
  lemma {:induction false} FirstOtherIsFirst(before: seq<string>, id: string, after: seq<string>)
    requires id != COMPOSITE && forall k | 0 <= k < |before| :: before[k] == COMPOSITE
    ensures FirstOther(before + [id] + after) == id
  {
    if before == [] {
      assert before + [id] + after == [id] + after;
    } else {
      FirstOtherIsFirst(before[1..], id, after);
      assert (before + [id] + after)[1..] == before[1..] + [id] + after;
    }
  }

  /**
   * The gate and the refusal behind it agree exactly where a default model is set. Without one the gate lets the
   * removal delete the files, and the configuration write is refused afterwards.
   */
  lemma GateAgreesExactlyWithADefault(defaultModel: string, ids: seq<string>)
    ensures (GateRefuses(defaultModel, ids) <==> Migrated(defaultModel, ids) == "") <==> defaultModel != ""
  {
  }

  // ------------------------------------------------------------------------------------------------
  // Any sequence of the writes
  // ------------------------------------------------------------------------------------------------

  datatype Config = Config(
    defaultModel: string, compat: map<string, Provider>, models: map<string, Override>, embedded: Embedded)

  /** `ok` is whether the file could be written. */
  datatype Write =
    | Install(state: InstallState, ok: bool)
    | Remove(ids: seq<string>, ok: bool)
    | MovePort(port: int, ok: bool)
    | CorrectContext(contextSize: int, ok: bool)

  function Synced(c: Config, contextWindow: int): Config {
    c.(compat := SyncedProviders(c.compat, c.embedded), models := SyncedOverrides(c.models, contextWindow))
  }

  function FilledIn(a: AutoUnload, state: InstallState): AutoUnload {
    AutoUnload(if a.enabled.None? then Some(state.autoUnloadEnabled) else a.enabled,
               if a.minutes.None? then Some(state.autoUnloadMinutes) else a.minutes)
  }

  function Next(c: Config, w: Write): Config {
    var e := c.embedded;
    match w
    case Install(state, ok) =>
      if !ok then c
      else Synced(c.(embedded := Embedded(true, state.record, e.engine, FilledIn(e.autoUnload, state), e.tuning)),
                  state.contextSize)
    case Remove(ids, ok) =>
      if Migrated(c.defaultModel, ids) == "" || !ok then c
      else Synced(c.(defaultModel := Migrated(c.defaultModel, ids),
                     embedded := Embedded(false, NO_RECORD, e.engine, e.autoUnload, e.tuning)), 0)
    case MovePort(port, ok) =>
      if !e.installed || !ok then c else Synced(c.(embedded := e.(record := e.record.(port := port))), 0)
    case CorrectContext(contextSize, ok) =>
      if !(0 < contextSize <= MAX_CONTEXT_WINDOW) || !e.installed || !ok then c else Synced(c, contextSize)
  }

  function Run(c: Config, writes: seq<Write>): Config
    decreases |writes|
  {
    if writes == [] then c else Next(Run(c, writes[..|writes| - 1]), writes[|writes| - 1])
  }

  /** The generated provider follows the record, and the default model is not one that is not installed. */
  predicate Consistent(c: Config) {
    Reconciled(c.compat, c.embedded) && (c.defaultModel == COMPOSITE ==> c.embedded.installed)
  }

  /** What is the operator's in `c` is still there in `d`. */
  predicate Keeps(c: Config, d: Config) {
    && d.embedded.engine == c.embedded.engine && d.embedded.tuning == c.embedded.tuning
    && (c.embedded.autoUnload.enabled.Some? ==> d.embedded.autoUnload.enabled == c.embedded.autoUnload.enabled)
    && (c.embedded.autoUnload.minutes.Some? ==> d.embedded.autoUnload.minutes == c.embedded.autoUnload.minutes)
    && d.compat - {PROVIDER} == c.compat - {PROVIDER} && d.models - {MODEL} == c.models - {MODEL}
    && OverrideOf(d.models).rest == OverrideOf(c.models).rest
    && (OverrideOf(c.models).outputLimit != 0 ==> OverrideOf(d.models).outputLimit == OverrideOf(c.models).outputLimit)
    && (c.defaultModel != COMPOSITE ==> d.defaultModel == c.defaultModel)
    && (c.defaultModel != "" ==> d.defaultModel != "")
  }

  lemma {:induction false} FirstOtherNeverEmbedded(ids: seq<string>)
    ensures FirstOther(ids) != COMPOSITE
    ensures FirstOther(ids) != "" ==> FirstOther(ids) in ids
  {
    if ids != [] {
      FirstOtherNeverEmbedded(ids[1..]);
    }
  }

  lemma SyncKeeps(c: Config, contextWindow: int)
    ensures Keeps(c, Synced(c, contextWindow)) && Reconciled(Synced(c, contextWindow).compat, c.embedded)
  {
    SyncReconciles(c.compat, c.embedded, "");
  }

  lemma StepKeeps(c: Config, w: Write)
    ensures Keeps(c, Next(c, w)) && (Consistent(c) ==> Consistent(Next(c, w)))
  {
    if w.Remove? {
      FirstOtherNeverEmbedded(w.ids);
    }
    var e := c.embedded;
    match w
    case Install(state, ok) =>
      var on := Embedded(true, state.record, e.engine, FilledIn(e.autoUnload, state), e.tuning);
      SyncKeeps(c.(embedded := on), state.contextSize);
    case Remove(ids, ok) =>
      var off := Embedded(false, NO_RECORD, e.engine, e.autoUnload, e.tuning);
      SyncKeeps(c.(defaultModel := Migrated(c.defaultModel, ids), embedded := off), 0);
    case MovePort(port, ok) => SyncKeeps(c.(embedded := e.(record := e.record.(port := port))), 0);
    case CorrectContext(contextSize, ok) => SyncKeeps(c, contextSize);
  }

  /**
   * Over every sequence of writes, failed ones included, the provider follows the record, the default model is never
   * the embedded one without an install nor lost, and everything of the operator's stays.
   */
  lemma {:induction false} WritesKeepTheConfig(c: Config, writes: seq<Write>)
    ensures Keeps(c, Run(c, writes)) && (Consistent(c) ==> Consistent(Run(c, writes)))
    decreases |writes|
  {
    if writes != [] {
      WritesKeepTheConfig(c, writes[..|writes| - 1]);
      StepKeeps(Run(c, writes[..|writes| - 1]), writes[|writes| - 1]);
    }
  }

  /** So whatever happened in between, without an install the providers are those there were, less the generated one. */
  lemma UninstalledLeavesTheProviders(c: Config, writes: seq<Write>)
    requires Consistent(c) && !Run(c, writes).embedded.installed
    ensures Run(c, writes).compat == c.compat - {PROVIDER} && Run(c, writes).defaultModel != COMPOSITE
  {
    WritesKeepTheConfig(c, writes);
    var d := Run(c, writes);
    assert d.compat - {PROVIDER} == d.compat;
  }

  // ------------------------------------------------------------------------------------------------
  // The writes
  // ------------------------------------------------------------------------------------------------

  /** A Go map: assigning one shares it. */
  class Table<V> {
    var m: map<string, V>

    constructor (m: map<string, V>)
      ensures this.m == m
    {
      this.m := m;
    }
  }

  datatype LLM = LLM(defaultModel: string, compat: Table<Provider>, models: Table<Override>)

  datatype WriteError = NotInitialized | NoOtherModel | NotSaved

  /** Every method here modifies this object alone, never a table: whoever else holds one sees no change in it. */
  class FrontendAPI {
    var loaded: bool
    var llm: LLM
    var embedded: Embedded
    var updates: nat

    ghost function View(): Config
      reads this, llm.compat, llm.models
    {
      Config(llm.defaultModel, llm.compat.m, llm.models.m, embedded)
    }

    constructor (llm: LLM, embedded: Embedded)
      ensures loaded && this.llm == llm && this.embedded == embedded && updates == 0
    {
      loaded, this.llm, this.embedded, updates := true, llm, embedded, 0;
    }

    method SetEmbeddedContextWindow(contextWindow: int) returns (changed: bool)
      requires contextWindow > 0
      modifies this`llm
      ensures llm == old(llm).(models := llm.models)
      ensures llm.models.m == WithWindow(old(llm.models.m), contextWindow)
      ensures changed <==> llm.models.m != old(llm.models.m)
      ensures if changed then fresh(llm.models) else llm == old(llm)
    {
      var o := OverrideOf(llm.models.m);
      if o.contextWindow == contextWindow {
        return false;
      }
      var clone := new Table(llm.models.m);
      clone.m := clone.m[MODEL := o.(contextWindow := contextWindow)];
      assert clone.m[MODEL].contextWindow != o.contextWindow;
      llm := llm.(models := clone);
      changed := true;
    }

    method SetEmbeddedOutputLimit(limit: int) returns (changed: bool)
      modifies this`llm
      ensures llm == old(llm).(models := llm.models)
      ensures llm.models.m == WithLimit(old(llm.models.m), limit)
      ensures changed <==> llm.models.m != old(llm.models.m)
      ensures if changed then fresh(llm.models) else llm == old(llm)
    {
      if limit <= 0 {
        return false;
      }
      var o := OverrideOf(llm.models.m);
      if o.outputLimit != 0 {
        return false;
      }
      var clone := new Table(llm.models.m);
      clone.m := clone.m[MODEL := o.(outputLimit := limit)];
      assert clone.m[MODEL].outputLimit != o.outputLimit;
      llm := llm.(models := clone);
      changed := true;
    }

    method SyncProvider() returns (changed: bool)
      modifies this`llm
      ensures llm == old(llm).(compat := llm.compat)
      ensures llm.compat.m == SyncedProviders(old(llm.compat.m), embedded)
      ensures changed <==> llm.compat.m != old(llm.compat.m)
      ensures if changed then fresh(llm.compat) else llm == old(llm)
    {
      changed := false;
      var present := PROVIDER in llm.compat.m;
      if !embedded.installed {
        if present {
          var clone := new Table(llm.compat.m);
          clone.m := clone.m - {PROVIDER};
          assert PROVIDER !in clone.m;
          llm := llm.(compat := clone);
          changed := true;
        }
      } else {
        var want := Generated(embedded.record.port, if present then llm.compat.m[PROVIDER].outputTokenReserve else 0);
        if !present || !SameBacking(llm.compat.m[PROVIDER], want) {
          var clone := new Table(llm.compat.m);
          clone.m := clone.m[PROVIDER := want];
          assert PROVIDER in clone.m && clone.m[PROVIDER] == want;
          llm := llm.(compat := clone);
          changed := true;
        }
      }
    }

    /** The answer says whether anything moved; a sync that moves nothing keeps the very tables. */
    method SyncEmbeddedLLMProvider(contextWindow: int) returns (changed: bool)
      modifies this`llm
      ensures llm.defaultModel == old(llm).defaultModel
      ensures llm.compat.m == SyncedProviders(old(llm.compat.m), embedded)
      ensures llm.models.m == SyncedOverrides(old(llm.models.m), contextWindow)
      ensures !changed ==> llm == old(llm)
      ensures contextWindow > 0 && OverrideOf(old(llm.models.m)).contextWindow != contextWindow ==> changed
    {
      changed := SyncProvider();
      if contextWindow > 0 {
        var moved := SetEmbeddedContextWindow(contextWindow);
        changed := changed || moved;
      }
      var seeded := SetEmbeddedOutputLimit(OutputCeiling(contextWindow));
      changed := changed || seeded;
    }

    /** A failed write restores what it is given, to the reference. */
    method SaveOrRollback(previousLLM: LLM, previousEmbedded: Embedded, saveOk: bool) returns (r: Result<(), WriteError>)
      modifies this`llm, this`embedded, this`updates
      ensures r == if saveOk then Ok(()) else Err(NotSaved)
      ensures saveOk ==> llm == old(llm) && embedded == old(embedded) && updates == old(updates) + 1
      ensures !saveOk ==> llm == previousLLM && embedded == previousEmbedded && updates == old(updates)
    {
      if !saveOk {
        llm, embedded := previousLLM, previousEmbedded;
        return Err(NotSaved);
      }
      updates := updates + 1;
      r := Ok(());
    }

    /** The operator's engine and tuning stay, auto-unload is filled in only where unset. */
    method ApplyInstalled(state: InstallState, saveOk: bool) returns (r: Result<(), WriteError>)
      modifies this`llm, this`embedded, this`updates
      ensures r.Ok? <==> loaded && saveOk
      ensures r.Err? ==> llm == old(llm) && embedded == old(embedded) && updates == old(updates)
      ensures loaded ==> View() == Next(old(View()), Install(state, saveOk))
      ensures r.Ok? ==> Reconciled(llm.compat.m, embedded) && updates == old(updates) + 1
      ensures r.Ok? ==>
        && embedded.installed && embedded.record == state.record
        && embedded.engine == old(embedded).engine && embedded.tuning == old(embedded).tuning
        && embedded.autoUnload.enabled ==
           (if old(embedded).autoUnload.enabled.None? then Some(state.autoUnloadEnabled) else old(embedded).autoUnload.enabled)
        && embedded.autoUnload.minutes ==
           (if old(embedded).autoUnload.minutes.None? then Some(state.autoUnloadMinutes) else old(embedded).autoUnload.minutes)
        && PROVIDER in llm.compat.m && llm.compat.m[PROVIDER].baseURL == Loopback(state.record.port)
        && MODEL in llm.models.m && (state.contextSize > 0 ==> llm.models.m[MODEL].contextWindow == state.contextSize)
        && llm.defaultModel == old(llm).defaultModel
    {
      if !loaded {
        return Err(NotInitialized);
      }
      var previousLLM, previousEmbedded := llm, embedded;
      embedded := Embedded(true, state.record, embedded.engine, embedded.autoUnload, embedded.tuning);
      if embedded.autoUnload.enabled.None? {
        embedded := embedded.(autoUnload := embedded.autoUnload.(enabled := Some(state.autoUnloadEnabled)));
      }
      if embedded.autoUnload.minutes.None? {
        embedded := embedded.(autoUnload := embedded.autoUnload.(minutes := Some(state.autoUnloadMinutes)));
      }
      SyncReconciles(llm.compat.m, embedded, "");
      OverridesSync(llm.models.m, state.contextSize, "");
      var _ := SyncEmbeddedLLMProvider(state.contextSize);
      r := SaveOrRollback(previousLLM, previousEmbedded, saveOk);
    }

    /**
     * The install's record goes, the operator's settings stay, and the default model moves off the embedded one to
     * the first other model; it is never left empty.
     */
    method ApplyRemoved(ids: seq<string>, saveOk: bool) returns (r: Result<(), WriteError>)
      modifies this`llm, this`embedded, this`updates
      ensures r == Err(NoOtherModel) <==> loaded && Migrated(old(llm).defaultModel, ids) == ""
      ensures r.Ok? <==> loaded && Migrated(old(llm).defaultModel, ids) != "" && saveOk
      ensures r.Err? ==> llm == old(llm) && embedded == old(embedded) && updates == old(updates)
      ensures loaded ==> View() == Next(old(View()), Remove(ids, saveOk))
      ensures r.Ok? ==>
        && embedded == Embedded(false, NO_RECORD, old(embedded).engine, old(embedded).autoUnload, old(embedded).tuning)
        && llm.defaultModel !in {"", "embedded/Bonsai 2 27B"} && llm.compat.m == old(llm.compat.m) - {PROVIDER}
        && (old(llm).defaultModel != COMPOSITE ==> llm.defaultModel == old(llm).defaultModel)
        && (old(llm).defaultModel == COMPOSITE ==> llm.defaultModel == FirstOther(ids) && llm.defaultModel in ids)
        && updates == old(updates) + 1
    {
      if !loaded {
        return Err(NotInitialized);
      }
      var previousLLM, previousEmbedded := llm, embedded;
      var migrated := llm.defaultModel;
      if migrated == COMPOSITE {
        migrated := FirstNonEmbeddedModelID(ids);
      }
      if migrated == "" {
        return Err(NoOtherModel);
      }
      FirstOtherNeverEmbedded(ids);
      embedded := Embedded(false, NO_RECORD, embedded.engine, embedded.autoUnload, embedded.tuning);
      llm := llm.(defaultModel := migrated);
      var _ := SyncEmbeddedLLMProvider(0);
      r := SaveOrRollback(previousLLM, previousEmbedded, saveOk);
    }

    method FirstNonEmbeddedModelID(ids: seq<string>) returns (id: string)
      ensures id == FirstOther(ids)
    {
      for k := 0 to |ids|
        invariant FirstOther(ids[k..]) == FirstOther(ids)
      {
        if ids[k] != COMPOSITE {
          return ids[k];
        }
        assert ids[k..][1..] == ids[k + 1..];
      }
      id := "";
    }

    /** A moved port keeps the provider record in step; without an install there is nothing to keep. */
    method PersistEmbeddedPort(port: int, saveOk: bool) returns (r: Result<(), WriteError>)
      modifies this`llm, this`embedded, this`updates
      ensures r.Err? || !old(embedded).installed ==> llm == old(llm) && embedded == old(embedded) && updates == old(updates)
      ensures loaded ==> View() == Next(old(View()), MovePort(port, saveOk))
      ensures r.Ok? <==> loaded && (!old(embedded).installed || saveOk)
      ensures r.Ok? && old(embedded).installed ==>
        && Reconciled(llm.compat.m, embedded) && PROVIDER in llm.compat.m
        && llm.compat.m[PROVIDER].baseURL == Loopback(port)
        && embedded == old(embedded).(record := old(embedded).record.(port := port))
        && llm.defaultModel == old(llm).defaultModel
    {
      if !loaded {
        return Err(NotInitialized);
      }
      if !embedded.installed {
        return Ok(());
      }
      var previousLLM, previousEmbedded := llm, embedded;
      embedded := embedded.(record := embedded.record.(port := port));
      SyncReconciles(llm.compat.m, embedded, "");
      var _ := SyncEmbeddedLLMProvider(0);
      r := SaveOrRollback(previousLLM, previousEmbedded, saveOk);
    }

    /** A window outside the accepted range never reaches the configuration; one that moves nothing is not written. */
    method PersistEmbeddedContext(contextSize: int, saveOk: bool) returns (r: Result<(), WriteError>, scheduled: bool)
      modifies this`llm, this`embedded, this`updates
      ensures embedded == old(embedded)
      ensures scheduled <==> r.Ok? && updates == old(updates) + 1
      ensures !scheduled ==> llm == old(llm) && updates == old(updates)
      ensures loaded && embedded.installed && 0 < contextSize <= 16777216
              && OverrideOf(old(llm.models.m)).contextWindow != contextSize ==>
        scheduled == r.Ok? == saveOk
      ensures loaded ==> View() == Next(old(View()), CorrectContext(contextSize, saveOk))
      ensures scheduled ==>
        && 0 < contextSize <= MAX_CONTEXT_WINDOW && embedded.installed
        && MODEL in llm.models.m && llm.models.m[MODEL].contextWindow == contextSize
    {
      scheduled := false;
      if contextSize <= 0 || contextSize > MAX_CONTEXT_WINDOW {
        return Ok(()), false;
      }
      if !loaded {
        return Err(NotInitialized), false;
      }
      if !embedded.installed {
        return Ok(()), false;
      }
      var previousLLM, previousEmbedded := llm, embedded;
      OverridesSync(llm.models.m, contextSize, "");
      var changed := SyncEmbeddedLLMProvider(contextSize);
      if !changed {
        return Ok(()), false;
      }
      r := SaveOrRollback(previousLLM, previousEmbedded, saveOk);
      scheduled := r.Ok?;
    }
  }
}
